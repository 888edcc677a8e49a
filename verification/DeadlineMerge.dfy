/** What becomes of a merged request in the deadline scheduler
    (block/deadline-iosched.c): the request that carries it takes over its
    deadline, and is dispatched within the same bound. */
module DeadlineMerge {
  import opened Lists
  import opened Deadline

  /** The request that carries `x` after a run: `x` itself, or the one it was
      merged into, or the one that was merged into, and so on. */
  ghost function Carrier(x: nat, es: seq<Event>): nat
    decreases |es|
  {
    if es == [] then x
    else Carrier(if es[0].MergeTwo? && es[0].gone == x then es[0].id else x, es[1..])
  }

  /** The requests queued for `d` that expire no later than `limit`. */
  ghost function Timely(s: Dd, d: Dir, limit: nat): set<nat> {
    set x | x in s.fifo.Get(d) && x in s.rqs && s.rqs[x].fifoTime <= limit
  }

  /** `x` is queued for `d` and expires no later than `limit`. */
  ghost predicate Waits(s: Dd, d: Dir, limit: nat, x: nat) {
    x in s.fifo.Get(d) && x in s.rqs && s.rqs[x].fifoTime <= limit
  }

  lemma SubsetSize(a: set<nat>, b: set<nat>)
    requires a <= b
    ensures |a| <= |b|
  {
    assert b == a + (b - a);
  }

  lemma WithoutIn(l: seq<nat>, y: nat)
    requires Distinct(l)
    ensures forall x :: x in Without(l, y) ==> x in l && x != y
  {
    WithoutMembers(l, y);
  }

  // ----------------------------------------------------- nobody gets in between

  /** Nothing joins the timely requests. */
  ghost predicate NoneJoin(s: Dd, s': Dd, d: Dir, limit: nat) {
    forall x :: x in s'.fifo.Get(d) && x in s'.rqs && s'.rqs[x].fifoTime <= limit ==>
      x in s.fifo.Get(d) && x in s.rqs && s.rqs[x].fifoTime <= limit
  }

  lemma NoneJoinSize(s: Dd, s': Dd, d: Dir, limit: nat)
    requires NoneJoin(s, s', d, limit)
    ensures Timely(s', d, limit) <= Timely(s, d, limit) && |Timely(s', d, limit)| <= |Timely(s, d, limit)|
  {
    SubsetSize(Timely(s', d, limit), Timely(s, d, limit));
  }

  lemma ClearedJoins(s: Dd, id: nat, d: Dir)
    requires id in s.rqs && Homed(s.rqs, s.sort.Get(s.rqs[id].dir), s.rqs[id].dir) && Distinct(s.fifo.Get(d))
    ensures Cleared(s, id).rqs == s.rqs && forall x :: x in Cleared(s, id).fifo.Get(d) ==> x in s.fifo.Get(d)
  {
    hide Without, Latter, Distinct;
    match Alias(s.rqs, s.sort.Get(s.rqs[id].dir), s.rqs[id].pos) {
      case None =>
      case Some(a) => WithoutIn(s.fifo.Get(d), a);
    }
  }

  lemma ArriveJoins(s: Dd, t: Tuning, clock: nat, id: nat, e: Dir, pos: nat, now: nat, d: Dir, limit: nat)
    requires Inv(s, t, clock) && id !in s.rqs && limit < now && Homed(s.rqs, s.sort.Get(e), e)
    ensures NoneJoin(s, AddRequest(s, t, id, e, pos, now), d, limit)
  {
    hide Inv, Cleared, Insert, Distinct;
    Basics(s, t, clock, d);
    var s0 := s.(rqs := s.rqs[id := Rq(e, pos, now + t.expire.Get(e))], nrSorted := s.nrSorted + 1);
    ClearedJoins(s0, id, d);
  }

  lemma FrontJoins(s: Dd, t: Tuning, clock: nat, id: nat, pos: nat, d: Dir, limit: nat)
    requires Inv(s, t, clock) && id in s.rqs && id in s.fifo.Get(s.rqs[id].dir)
    requires Homed(s.rqs, s.sort.Get(s.rqs[id].dir), s.rqs[id].dir)
    ensures NoneJoin(s, FrontMerged(s, id, pos), d, limit)
  {
    hide Inv, Cleared, Insert, Distinct, Without;
    Basics(s, t, clock, d);
    HomedWithout(s.rqs, s.sort.Get(s.rqs[id].dir), s.rqs[id].dir, id);
    ClearedJoins(Lifted(s, id, pos), id, d);
  }

  lemma CallJoins(s: Dd, t: Tuning, clock: nat, now: nat, d: Dir, limit: nat)
    requires Inv(s, t, clock) && Known(s.rqs, s.fifo.read) && Known(s.rqs, s.fifo.write)
    ensures NoneJoin(s, Dispatch(s, t, now).0, d, limit)
  {
    hide Inv, Choose, Distinct, Without, Latter;
    Basics(s, t, clock, d);
    match Choose(s, t, now) {
      case Nothing =>
      case Pick(id, _, _) => WithoutIn(s.fifo.Get(d), id);
    }
  }

  /** A merge takes one request out, and puts its carrier in at most in its place. */
  lemma MergeTimely(s: Dd, t: Tuning, clock: nat, id: nat, gone: nat, d: Dir, limit: nat)
    requires Inv(s, t, clock) && Mergeable(s, id, gone)
    ensures |Timely(Merged(s, id, gone), d, limit)| <= |Timely(s, d, limit)|
  {
    hide Inv, Without, InsertAfter, Latter, Distinct;
    var s', e := Merged(s, id, gone), s.rqs[id].dir;
    MergedMembers(s, t, clock, id, gone, d);
    Basics(s, t, clock, d);
    var a, b := Timely(s, d, limit), Timely(s', d, limit);
    if d == e && s.rqs[gone].fifoTime <= limit {
      assert gone in a && b <= a - {gone} + {id};
      SubsetSize(b, a - {gone} + {id});
    } else {
      SubsetSize(b, a);
    }
  }

  lemma MergedMembers(s: Dd, t: Tuning, clock: nat, id: nat, gone: nat, d: Dir)
    requires Inv(s, t, clock) && Mergeable(s, id, gone)
    ensures var s' := Merged(s, id, gone);
            && (forall x :: x in s'.fifo.Get(d) <==> x in s.fifo.Get(d) && (x != gone || d != s.rqs[id].dir))
            && id in s'.rqs && s'.rqs == s.rqs[id := s'.rqs[id]]
            && s'.rqs[id].fifoTime == (if s.rqs[gone].fifoTime < s.rqs[id].fifoTime then s.rqs[gone].fifoTime
                                       else s.rqs[id].fifoTime)
  {
    var e := s.rqs[id].dir;
    FifoFacts(s, t, clock, e);
    if d == e {
      MergedFifo(s, id, gone, clock + t.expire.Get(e));
    } else {
      MergedShape(s, id, gone);
    }
    hide FifoOk, Without, InsertAfter, Latter, Inv;
    assert s.rqs == s.rqs[id := s.rqs[id]];
  }

  lemma FifoFacts(s: Dd, t: Tuning, clock: nat, d: Dir)
    requires Inv(s, t, clock)
    ensures FifoOk(s.rqs, s.fifo.Get(d), d, clock + t.expire.Get(d))
  {
    hide HeadOk, AllThere, FifoOk, TreeOk, Same;
    assert DirOk(s, d, {}, clock + t.expire.Get(d));
  }

  /** No step makes more requests timely once that time has passed. */
  lemma StepTimely(s: Dd, t: Tuning, clock: nat, e: Event, d: Dir, limit: nat)
    requires Inv(s, t, clock) && Enabled(s, e) && clock <= e.now && limit < clock
    ensures |Timely(Step(s, t, clock, e), d, limit)| <= |Timely(s, d, limit)|
  {
    Basics(s, t, clock, Read);
    Basics(s, t, clock, Write);
    hide Inv, AddRequest, FrontMerged, Merged, Dispatch, Distinct, Timely, NoneJoin;
    var s' := Step(s, t, clock, e);
    match e {
      case Arrive(id, dir, pos, now) =>
        ArriveJoins(s, t, clock, id, dir, pos, now, d, limit);
        NoneJoinSize(s, s', d, limit);
      case MergeFront(id, pos, _) =>
        FrontJoins(s, t, clock, id, pos, d, limit);
        NoneJoinSize(s, s', d, limit);
      case MergeTwo(id, gone, _) => MergeTimely(s, t, clock, id, gone, d, limit);
      case Call(now) =>
        CallJoins(s, t, clock, now, d, limit);
        NoneJoinSize(s, s', d, limit);
    }
  }

  // -------------------------------------------------------------- the carrier moves

  /** The carrier of `x` after one step. */
  ghost function Next(x: nat, e: Event): nat {
    if e.MergeTwo? && e.gone == x then e.id else x
  }

  lemma StepMerged(s: Dd, t: Tuning, clock: nat, e: Event)
    requires Inv(s, t, clock) && Enabled(s, e)
    ensures Step(s, t, clock, e).merged == s.merged + if e.MergeTwo? then {e.gone} else {}
  {
    Basics(s, t, clock, Read);
    Basics(s, t, clock, Write);
    hide Inv, Choose, Insert, Without, Latter, InsertAfter, Distinct;
  }

  lemma NotMerged(s: Dd, t: Tuning, clock: nat, d: Dir, x: nat)
    requires Inv(s, t, clock) && x in s.fifo.Get(d)
    ensures x !in s.merged && x !in s.head
  {
    hide DirOk, AllThere, Distinct;
  }

  /** After a step the carrier still waits and is as timely, or is dispatched. */
  lemma CarrierStep(s: Dd, t: Tuning, clock: nat, e: Event, d: Dir, limit: nat, x: nat)
    requires Inv(s, t, clock) && Enabled(s, e) && clock <= e.now && Waits(s, d, limit, x)
    ensures var s', y := Step(s, t, clock, e), Next(x, e); Waits(s', d, limit, y) || y in s'.head
  {
    hide Inv, Step, Mergeable;
    var s' := Step(s, t, clock, e);
    StepOk(s, t, clock, e);
    if e.MergeTwo? {
      CarrierMerges(s, t, clock, e, d, limit, x);
    } else {
      StepMerged(s, t, clock, e);
      NotMerged(s, t, clock, d, x);
      QueuedDir(s, t, clock, d, x);
      StepKeeps(s, t, clock, e);
      Somewhere(s', t, e.now, d, x);
      StaysTimely(s, t, clock, e, d, x);
    }
  }

  lemma StaysTimely(s: Dd, t: Tuning, clock: nat, e: Event, d: Dir, x: nat)
    requires Inv(s, t, clock) && Enabled(s, e) && clock <= e.now && x in s.fifo.Get(d) && x in s.rqs && !e.MergeTwo?
    ensures var s' := Step(s, t, clock, e);
            x in s'.fifo.Get(d) ==> x in s'.rqs && s'.rqs[x].fifoTime <= s.rqs[x].fifoTime
  {
    Basics(s, t, clock, Read);
    Basics(s, t, clock, Write);
    hide Inv, Distinct, Dispatch, AddRequest, FrontMerged, Merged, At;
    if e.Call? {
      CallRqs(s, t, e.now);
    } else {
      QuietStep(s, t, clock, e, d, x);
    }
  }

  lemma CallRqs(s: Dd, t: Tuning, now: nat)
    requires Known(s.rqs, s.fifo.read) && Known(s.rqs, s.fifo.write)
    ensures Dispatch(s, t, now).0.rqs == s.rqs
  {
    hide Choose, Without, Latter;
  }

  lemma CarrierMerges(s: Dd, t: Tuning, clock: nat, e: Event, d: Dir, limit: nat, x: nat)
    requires Inv(s, t, clock) && Enabled(s, e) && e.MergeTwo? && Waits(s, d, limit, x)
    ensures Waits(Step(s, t, clock, e), d, limit, Next(x, e))
  {
    QueuedDir(s, t, clock, d, x);
    MergedMembers(s, t, clock, e.id, e.gone, d);
    hide Inv, Merged;
  }

  // ------------------------------------------------------------------- the bound

  /** An upper bound on the calls before a request that expires by `limit` goes. */
  ghost function Bound(t: Tuning, s: Dd, d: Dir, limit: nat): nat
    requires |Timely(s, d, limit)| > 0
  {
    Times(|Timely(s, d, limit)| - 1, MaxTurn(t, d)) + Turn(t, s, d)
  }

  lemma WaitsCounts(s: Dd, d: Dir, limit: nat, x: nat)
    requires Waits(s, d, limit, x)
    ensures |Timely(s, d, limit)| > 0
  {
    assert x in Timely(s, d, limit);
  }

  /** A call that starts a batch of `d` sends a timely request, if one waits. */
  lemma StartSends(s: Dd, t: Tuning, clock: nat, now: nat, d: Dir, limit: nat, x: nat)
    requires Inv(s, t, clock) && Waits(s, d, limit, x) && limit < now
    requires Known(s.rqs, s.fifo.read) && Known(s.rqs, s.fifo.write) && Starts(s, t, now, Choose(s, t, now), d)
    ensures |Timely(Dispatch(s, t, now).0, d, limit)| < |Timely(s, d, limit)|
  {
    hide Inv, Choose, Dispatch, Without, Latter, Distinct, At;
    Basics(s, t, clock, d);
    OldestExpired(s, t, clock, d, x);
    CallSends(s, t, clock, now);
    var c, s' := Choose(s, t, now), Dispatch(s, t, now).0;
    WithoutIn(s.fifo.Get(d), c.id);
    var a, b := Timely(s, d, limit), Timely(s', d, limit);
    assert c.id in a && b <= a - {c.id};
    SubsetSize(b, a - {c.id});
  }

  lemma BoundShrinks(t: Tuning, s: Dd, s': Dd, d: Dir, limit: nat)
    requires 0 < |Timely(s', d, limit)| <= |Timely(s, d, limit)| && Turn(t, s', d) < MaxTurn(t, d) && Turn(t, s, d) > 0
    requires Turn(t, s', d) < Turn(t, s, d) || |Timely(s', d, limit)| < |Timely(s, d, limit)|
    ensures Bound(t, s', d, limit) < Bound(t, s, d, limit)
  {
    hide Times, Turn, MaxTurn, Timely;
    var a, a' := |Timely(s, d, limit)| - 1, |Timely(s', d, limit)| - 1;
    if a' < a {
      TimesLess(a, MaxTurn(t, d));
      TimesMonotone(a', a - 1, MaxTurn(t, d));
    }
  }

  lemma CallBound(s: Dd, t: Tuning, clock: nat, now: nat, d: Dir, limit: nat, x: nat)
    requires Inv(s, t, clock) && Waits(s, d, limit, x) && limit < clock <= now && (d.Read? ==> t.writesStarved > 0)
    requires Waits(Step(s, t, clock, Call(now)), d, limit, x)
    ensures |Timely(s, d, limit)| > 0 && |Timely(Step(s, t, clock, Call(now)), d, limit)| > 0
    ensures Bound(t, Step(s, t, clock, Call(now)), d, limit) < Bound(t, s, d, limit)
  {
    Basics(s, t, clock, Read);
    Basics(s, t, clock, Write);
    hide Inv, Choose, Dispatch, Distinct, Turn, MaxTurn, Starts, Timely, Times;
    var s' := Step(s, t, clock, Call(now));
    WaitsCounts(s, d, limit, x);
    WaitsCounts(s', d, limit, x);
    StepTimely(s, t, clock, Call(now), d, limit);
    CallTurn(s, t, clock, now, d);
    if Starts(s, t, now, Choose(s, t, now), d) {
      StartSends(s, t, clock, now, d, limit, x);
    }
    BoundShrinks(t, s, s', d, limit);
  }

  lemma QuietBound(s: Dd, t: Tuning, clock: nat, e: Event, d: Dir, limit: nat)
    requires Inv(s, t, clock) && Enabled(s, e) && limit < clock <= e.now && !e.Call?
    requires |Timely(s, d, limit)| > 0 && |Timely(Step(s, t, clock, e), d, limit)| > 0
    ensures Bound(t, Step(s, t, clock, e), d, limit) <= Bound(t, s, d, limit)
  {
    hide Inv, Step, Timely, Times, Turn, MaxTurn;
    var s' := Step(s, t, clock, e);
    SameCounters(s, t, clock, e);
    SameTurn(t, s', s, d);
    StepTimely(s, t, clock, e, d, limit);
    TimesMonotone(|Timely(s', d, limit)| - 1, |Timely(s, d, limit)| - 1, MaxTurn(t, d));
  }

  /** A dispatched request is merged no more. */
  lemma {:induction false} CarrierStays(s: Dd, t: Tuning, clock: nat, es: seq<Event>, x: nat)
    requires Inv(s, t, clock) && Legal(s, t, clock, es) && x in s.head
    ensures Carrier(x, es) == x && x in Run(s, t, clock, es).head
    decreases |es|
  {
    hide Inv, Step;
    if es != [] {
      StepOk(s, t, clock, es[0]);
      StepKeeps(s, t, clock, es[0]);
      if es[0].MergeTwo? && es[0].gone == x {
        NotMerged(s, t, clock, s.rqs[es[0].id].dir, x);
        assert false;
      }
      CarrierStays(Step(s, t, clock, es[0]), t, es[0].now, es[1..], x);
    }
  }

  lemma {:induction false} CarrierGoes(s: Dd, t: Tuning, clock: nat, es: seq<Event>, d: Dir, limit: nat, x: nat)
    requires Inv(s, t, clock) && Legal(s, t, clock, es) && Waits(s, d, limit, x) && limit < clock
    requires (d.Read? ==> t.writesStarved > 0) && |Timely(s, d, limit)| > 0 && Calls(es) >= Bound(t, s, d, limit)
    ensures Carrier(x, es) in Run(s, t, clock, es).head
    decreases |es|
  {
    TurnBound(t, s, d);
    hide Inv, Enabled, Times, Turn, MaxTurn, Step, Timely, Waits;
    var e := es[0];
    StepOk(s, t, clock, e);
    var s', y := Step(s, t, clock, e), Next(x, e);
    CarrierStep(s, t, clock, e, d, limit, x);
    if Waits(s', d, limit, y) {
      WaitsCounts(s', d, limit, y);
      if e.Call? {
        CallBound(s, t, clock, e.now, d, limit, x);
      } else {
        QuietBound(s, t, clock, e, d, limit);
      }
      CarrierGoes(s', t, e.now, es[1..], d, limit, y);
    } else {
      CarrierStays(s', t, e.now, es[1..], y);
    }
  }

  /** An expired request is dispatched, itself or in the request that carries it,
      within a number of calls linear in how many requests of its direction
      expire no later. For reads this needs writes_starved to be at least one. */
  lemma {:induction false} CarrierServed(s: Dd, t: Tuning, clock: nat, es: seq<Event>, d: Dir, x: nat)
    requires Inv(s, t, clock) && Legal(s, t, clock, es) && x in s.fifo.Get(d) && x in s.rqs
    requires s.rqs[x].fifoTime < clock && (d.Read? ==> t.writesStarved > 0)
    requires Calls(es) >= Times(|Timely(s, d, s.rqs[x].fifoTime)|, MaxTurn(t, d))
    ensures Carrier(x, es) in Run(s, t, clock, es).head
  {
    hide Inv, Legal, Run, Times, Turn, MaxTurn, Timely, Carrier;
    var limit := s.rqs[x].fifoTime;
    WaitsCounts(s, d, limit, x);
    TurnBound(t, s, d);
    TimesLess(|Timely(s, d, limit)|, MaxTurn(t, d));
    CarrierGoes(s, t, clock, es, d, limit, x);
  }

  /** If no other request expires at the same time, that number is its place in
      the FIFO, counted from one. */
  lemma TimelyIsPlace(s: Dd, t: Tuning, clock: nat, d: Dir, x: nat)
    requires Inv(s, t, clock) && x in s.fifo.Get(d) && x in s.rqs
    requires forall y :: y in s.fifo.Get(d) && y in s.rqs && y != x ==> s.rqs[y].fifoTime != s.rqs[x].fifoTime
    ensures |Timely(s, d, s.rqs[x].fifoTime)| == At(s.fifo.Get(d), x) + 1
  {
    FifoFacts(s, t, clock, d);
    hide Inv, At;
    var l, i := s.fifo.Get(d), At(s.fifo.Get(d), x);
    AheadTimely(s, d, l, i);
    ElementsSize(l[..i + 1]);
  }

  lemma AheadTimely(s: Dd, d: Dir, l: seq<nat>, i: nat)
    requires l == s.fifo.Get(d) && i < |l| && Known(s.rqs, l) && Distinct(l) && ByExpiry(s.rqs, l)
    requires forall y :: y in l && y != l[i] ==> s.rqs[y].fifoTime != s.rqs[l[i]].fifoTime
    ensures Timely(s, d, s.rqs[l[i]].fifoTime) == Elements(l[..i + 1])
  {
    forall y
      ensures y in Timely(s, d, s.rqs[l[i]].fifoTime) <==> y in l[..i + 1]
    {
      if y in l {
        var j :| 0 <= j < |l| && l[j] == y;
        if j <= i {
          assert l[..i + 1][j] == y;
        } else {
          assert s.rqs[l[i]].fifoTime <= s.rqs[l[j]].fifoTime && l[j] != l[i];
          assert y !in l[..i + 1];
        }
      }
    }
  }

  ghost function Elements(l: seq<nat>): set<nat> {
    set y | y in l
  }

  lemma {:induction false} ElementsSize(l: seq<nat>)
    requires Distinct(l)
    ensures |Elements(l)| == |l|
  {
    if l == [] {
      assert Elements(l) == {};
    } else {
      var rest := l[..|l| - 1];
      ElementsSize(rest);
      assert Elements(l) == Elements(rest) + {l[|l| - 1]};
    }
  }
}

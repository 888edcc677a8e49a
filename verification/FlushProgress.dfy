/** Progress of the FLUSH/FUA sequencer of block/blk-flush.c: every completion of
    a flush or of sequenced data brings the requests nearer to their end. */
module FlushProgress {
  import opened Lists
  import opened Flush

  /** The steps a request has still to perform. */
  ghost function Left(h: History, id: nat): nat {
    if id in h.policy && id in h.log && |h.log[id]| <= |Steps(h.policy[id])|
    then |Steps(h.policy[id])| - |h.log[id]| else 0
  }

  ghost function LeftOf(h: History, l: seq<nat>): nat {
    if l == [] then 0 else Left(h, l[0]) + LeftOf(h, l[1..])
  }

  /** The steps that all unfinished requests have still to perform. */
  ghost function Work(s: State): nat {
    LeftOf(s.h, s.q.list0) + LeftOf(s.h, s.q.list1) + LeftOf(s.h, s.q.dataInFlight)
  }

  // ------------------------------------------------------------------ the sums

  lemma {:induction false} LeftSame(h: History, h': History, l: seq<nat>)
    requires forall x :: x in l ==> Left(h', x) == Left(h, x)
    ensures LeftOf(h', l) == LeftOf(h, l)
  {
    if l != [] {
      hide Left;
      LeftSame(h, h', l[1..]);
    }
  }

  lemma {:induction false} LeftSnoc(h: History, l: seq<nat>, id: nat)
    ensures LeftOf(h, l + [id]) == LeftOf(h, l) + Left(h, id)
  {
    hide Left;
    if l == [] {
      assert l + [id] == [id] && [id][1..] == [];
    } else {
      assert (l + [id])[1..] == l[1..] + [id];
      LeftSnoc(h, l[1..], id);
    }
  }

  lemma {:induction false} LeftWithout(h: History, l: seq<nat>, id: nat)
    requires Distinct(l)
    ensures LeftOf(h, l) == LeftOf(h, Without(l, id)) + if id in l then Left(h, id) else 0
  {
    hide Left;
    if l != [] && l[0] != id {
      LeftWithout(h, l[1..], id);
      assert ([l[0]] + Without(l[1..], id))[1..] == Without(l[1..], id);
    }
  }

  /** Taking a request off its list takes its steps out of the sum. */
  lemma OffWork(s: State, id: nat)
    requires ListsOk(s.q) && Live(s.q, id)
    ensures Work(s) == Work(Off(s, id)) + Left(s.h, id)
  {
    hide Left, LeftOf, Without, Distinct;
    LeftWithout(s.h, s.q.list0, id);
    LeftWithout(s.h, s.q.list1, id);
    LeftWithout(s.h, s.q.dataInFlight, id);
  }

  /** The records of a request off the lists are not in the sum. */
  lemma TouchWork(s: State, s': State, id: nat)
    requires Touched(s, s', id) && !Live(s.q, id)
    ensures Work(s') == Work(s)
  {
    hide LeftOf;
    LeftSame(s.h, s'.h, s.q.list0);
    LeftSame(s.h, s'.h, s.q.list1);
    LeftSame(s.h, s'.h, s.q.dataInFlight);
  }

  lemma PlaceWork(s: State, id: nat, step: FSeq, first: bool, now: nat)
    requires id in s.q.rqs
    ensures Work(Place(s, id, step, first, now)) == Work(s) + if step == Done then 0 else Left(s.h, id)
  {
    hide LeftOf, Complete, Restore;
    LeftSnoc(s.h, s.q.list0, id);
    LeftSnoc(s.h, s.q.list1, id);
    LeftSnoc(s.h, s.q.dataInFlight, id);
    var s' := Place(s, id, step, first, now);
    LeftSame(s.h, s'.h, s'.q.list0);
    LeftSame(s.h, s'.h, s'.q.list1);
    LeftSame(s.h, s'.h, s'.q.dataInFlight);
  }

  lemma KickWork(s: State, hz: nat, now: nat)
    ensures Work(Kick(s, hz, now)) == Work(s)
  {
    hide LeftOf;
    var s' := Kick(s, hz, now);
    LeftSame(s.h, s'.h, s.q.list0);
    LeftSame(s.h, s'.h, s.q.list1);
    LeftSame(s.h, s'.h, s.q.dataInFlight);
  }

  // ------------------------------------------------------------- completions

  /** A request on a list that performs a step, or fails, and goes on from `x`. */
  lemma GoOnWork(s: State, x: State, id: nat, step: FSeq, first: bool, hz: nat, now: nat)
    requires ListsOk(s.q) && Live(s.q, id) && Touched(Off(s, id), x, id) && id in x.q.rqs
    requires step == Done || Left(x.h, id) < Left(s.h, id)
    requires Left(s.h, id) > 0
    ensures Work(Kick(Place(x, id, step, first, now), hz, now)) < Work(s)
  {
    hide Work, Left, Touched, Place, Kick, Unlink;
    OffWork(s, id);
    OffLists(s.q, id);
    TouchWork(Off(s, id), x, id);
    PlaceWork(x, id, step, first, now);
    KickWork(Place(x, id, step, first, now), hz, now);
  }

  lemma LiveLeft(s: State, id: nat)
    requires Base(s, {}) && Live(s.q, id)
    ensures id in s.q.rqs && id in s.h.log && id in s.h.policy && Left(s.h, id) > 0
    ensures |s.h.log[id]| < |Steps(s.h.policy[id])|
  {
    hide Base;
    BaseRq(s, id);
    BaseKeyed(s, id);
    hide Effects, SeqFor;
  }

  lemma OneStepLess(s: State, x: State, id: nat, step: FSeq)
    requires id in s.h.log && id in s.h.policy && |s.h.log[id]| < |Steps(s.h.policy[id])|
    requires id in x.h.log && id in x.h.policy && x.h.policy[id] == s.h.policy[id]
    requires x.h.log[id] == s.h.log[id] + [step]
    ensures Left(x.h, id) < Left(s.h, id)
  {
  }

  /** One turn of the completion walk leaves less to do. */
  lemma PushedWork(s: State, ids: seq<nat>, k: nat, stable: set<nat>, error: bool, hz: nat, now: nat)
    requires Base(s, {}) && Buffers(s, ids, k, stable) && ids != []
    ensures ids[0] in s.q.rqs && Work(Pushed(s, ids[0], k, error, hz, now)) < Work(s)
  {
    hide Base, Buffers, Work, Left, Touched, BetweenFlush, Pushed, Kick, Place, Unlink;
    var id := ids[0];
    WalkHead(s, ids, k, stable);
    BaseParts(s, {});
    LiveLeft(s, id);
    BetweenTouched(s, id, k, error);
    BetweenRecord(s, id, k, error);
    var x := BetweenFlush(s, id, k, error);
    BaseKeyed(s, id);
    assert id in x.h.log && id in x.h.policy by { KeyedHas(x, id); }
    if !error {
      OneStepLess(s, x, id, CurSeq(s.q.rqs[id].seq_));
    }
    GoOnWork(s, x, id, if error then Done else CurSeq(x.q.rqs[id].seq_), s.q.Pending() == [], hz, now);
    PushedIs(s, id, k, error, hz, now);
  }

  lemma KeyedHas(s: State, id: nat)
    requires Keyed(s) && id in s.q.rqs
    ensures id in s.h.log && id in s.h.policy
  {
    assert id in s.h.log.Keys && id in s.h.policy.Keys;
  }

  lemma {:induction false} WalkWork(s: State, ids: seq<nat>, k: nat, stable: set<nat>, error: bool, hz: nat, now: nat)
    requires Base(s, {}) && Buffers(s, ids, k, stable) && (!error ==> stable <= s.h.durable)
    requires forall id :: id in ids ==> id in s.q.rqs
    ensures Work(Walk(s, ids, k, error, hz, now)) + |ids| <= Work(s)
    decreases |ids|
  {
    if ids != [] {
      hide Base, Buffers, Pushed, Work;
      PushedWork(s, ids, k, stable, error, hz, now);
      PushedOk(s, ids, k, stable, error, hz, now);
      WalkWork(Pushed(s, ids[0], k, error, hz, now), ids[1..], k, stable, error, hz, now);
    }
  }

  lemma FlipWork(s: State, error: bool)
    ensures Work(Flipped(s, error)) == Work(s)
  {
    hide LeftOf;
    var s' := Flipped(s, error);
    LeftSame(s.h, s'.h, s.q.list0);
    LeftSame(s.h, s'.h, s.q.list1);
    LeftSame(s.h, s'.h, s.q.dataInFlight);
  }

  /** A completed or failed flush leaves a step less to do for every request it
      was issued for, and there is one. */
  lemma FlushWork(s: State, error: bool, hz: nat, now: nat)
    requires Inv(s) && FlushCmd in s.q.device
    ensures forall id :: id in s.q.List(s.q.runningIdx) ==> id in s.q.rqs
    ensures s.h.waiting != [] && Work(FlushEndIo(s, error, hz, now)) + |s.h.waiting| <= Work(s)
  {
    FlushEndIoOk(s, error, hz, now);
    FlipOk(s, error);
    hide Base, Buffers, Walk, Work;
    FlipWork(s, error);
    assert Flipped(s, error).q.rqs == s.q.rqs;
    assert !error ==> s.h.snapshot <= Flipped(s, error).h.durable;
    WalkWork(Flipped(s, error), s.h.waiting, s.h.issued, s.h.snapshot, error, hz, now);
  }

  /** So does completed or failed data. */
  lemma DataWork(s: State, id: nat, error: bool, hz: nat, now: nat)
    requires Inv(s) && DataCmd(id) in s.q.device
    ensures id in s.q.rqs && Work(DataEndIo(s, id, error, hz, now)) < Work(s)
  {
    hide Base, Buffers, Work, Left, Touched, BetweenData, DataEndIo, Kick, Place, Unlink;
    DataFacts(s, id);
    BaseParts(s, {});
    LiveLeft(s, id);
    DataTouched(s, id, error);
    DataRecord(s, id, error);
    var x := BetweenData(s, id, error);
    KeyedHas(x, id);
    if !error {
      OneStepLess(s, x, id, Data);
    }
    GoOnWork(s, x, id, if error then Done else CurSeq(x.q.rqs[id].seq_), s.q.Pending() == [], hz, now);
    DataIs(s, id, error, hz, now);
  }

  // ---------------------------------------------------------------------- runs

  /** A completion of the flush or of sequenced data. */
  predicate Completes(e: Event) {
    e.DataDone? || e.FlushDone?
  }

  /** Every step but an insertion leaves no more to do, and a completion less. */
  lemma StepWork(s: State, e: Event, hz: nat, now: nat)
    requires Inv(s) && Enabled(s, e) && !e.Insert?
    ensures Work(Next(s, e, hz, now)) + (if Completes(e) then 1 else 0) <= Work(s)
  {
    hide Inv, Work, DataEndIo, FlushEndIo;
    match e
    case Write(id) => SameWork(s, Next(s, e, hz, now));
    case Fetch => SameWork(s, Next(s, e, hz, now));
    case DataDone(id, error) => DataWork(s, id, error, hz, now);
    case FlushDone(error) => FlushWork(s, error, hz, now);
    case PlainDone(id, error) => SameWork(s, Next(s, e, hz, now));
  }

  lemma SameWork(s: State, s': State)
    requires s'.q.list0 == s.q.list0 && s'.q.list1 == s.q.list1 && s'.q.dataInFlight == s.q.dataInFlight
    requires s'.h.policy == s.h.policy && s'.h.log == s.h.log
    ensures Work(s') == Work(s)
  {
    hide LeftOf;
    LeftSame(s.h, s'.h, s.q.list0);
    LeftSame(s.h, s'.h, s.q.list1);
    LeftSame(s.h, s'.h, s.q.dataInFlight);
  }

  /** `es` leads from `s` to `r`. */
  ghost predicate Leads(s: State, hz: nat, es: seq<(Event, nat)>, r: State)
    decreases |es|
  {
    if es == [] then r == s
    else Enabled(s, es[0].0) && Leads(Next(s, es[0].0, hz, es[0].1), hz, es[1..], r)
  }

  ghost function Completions(es: seq<(Event, nat)>): nat {
    if es == [] then 0 else (if Completes(es[0].0) then 1 else 0) + Completions(es[1..])
  }

  /** Without further insertions there are no more completions than steps left,
      and what is left afterwards is less by as many. */
  lemma {:induction false} CompletionsBounded(s: State, hz: nat, es: seq<(Event, nat)>, r: State)
    requires Inv(s) && Awake(s.q) && Leads(s, hz, es, r) && forall i :: 0 <= i < |es| ==> !es[i].0.Insert?
    ensures Inv(r) && Awake(r.q) && Completions(es) + Work(r) <= Work(s)
    decreases |es|
  {
    hide Inv, Awake, Next, Enabled, Work;
    if es != [] {
      var (e, now) := es[0];
      NextInv(s, e, hz, now);
      StepWork(s, e, hz, now);
      CompletionsBounded(Next(s, e, hz, now), hz, es[1..], r);
    }
  }

  /** A request that is not finished has a step left, so when as many have
      completed as were left, all requests are finished. */
  lemma {:induction false} EndsWithin(s: State, hz: nat, es: seq<(Event, nat)>, r: State, id: nat)
    requires Inv(s) && Awake(s.q) && Leads(s, hz, es, r) && forall i :: 0 <= i < |es| ==> !es[i].0.Insert?
    requires Completions(es) >= Work(s) && id in r.q.rqs
    ensures !Live(r.q, id) && r.q.rqs[id].bioEnds == 1
  {
    hide Inv, Awake, Leads, Work;
    CompletionsBounded(s, hz, es, r);
    NoWorkFinished(r, id);
  }

  lemma NoWorkFinished(s: State, id: nat)
    requires Inv(s) && id in s.q.rqs && Work(s) == 0
    ensures !Live(s.q, id) && s.q.rqs[id].bioEnds == 1
  {
    hide Base, Left, Buffers;
    BaseParts(s, {});
    if Live(s.q, id) {
      LiveLeft(s, id);
      hide LeftOf;
      OffWork(s, id);
    } else {
      EndedOnce(s, id);
    }
  }

  lemma EndedOnce(s: State, id: nat)
    requires Base(s, {}) && id in s.q.rqs && !Live(s.q, id)
    ensures s.q.rqs[id].bioEnds == 1
  {
    BaseRq(s, id);
    hide Base, Effects;
  }

  /** While a request is not finished the driver has something to take or to
      complete, so a driver that goes on gets there. */
  lemma SomethingToDo(s: State, id: nat, error: bool)
    requires Inv(s) && Awake(s.q) && Live(s.q, id)
    ensures Enabled(s, Fetch) || Enabled(s, FlushDone(error)) || exists i :: Enabled(s, DataDone(i, error))
  {
    var c := CommandFor(s, id);
    if s.q.head == [] {
      assert c in s.q.device;
      CompletionEnabled(s, c, error);
    }
  }

  /** Some command of the machinery exists. */
  lemma CommandFor(s: State, id: nat) returns (c: Cmd)
    requires Inv(s) && Awake(s.q) && Live(s.q, id)
    ensures !c.PlainCmd? && s.q.Count(c) > 0
  {
    hide RqOk, Placed, ListsOk, CoveredBy;
    if id in s.q.dataInFlight {
      assert DataCmdOk(s, id);
      c := DataCmd(id);
    } else if s.q.Count(FlushCmd) > 0 {
      c := FlushCmd;
    } else {
      assert id in s.q.Pending();
      var i :| s.q.Count(DataCmd(i)) > 0;
      c := DataCmd(i);
    }
  }
}

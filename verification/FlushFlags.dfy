/** What a FLUSH or FUA request is promised for the flags it is inserted with
    (Documentation/block/writeback_cache_control.txt), over every run of the
    sequencer. The flags, and what had been written by then, are read off the run
    itself; the policy the sequencer works out is not mentioned.
 */
module FlushFlags {
  import opened Lists
  import opened Flush

  // ------------------------------------------------------------ what stays put

  /** No request is forgotten, nothing written, stable or failed is taken back,
      and no command outside the machinery comes or goes. */
  ghost predicate Steady(s: State, s': State) {
    && s'.q.rqs.Keys == s.q.rqs.Keys && s'.h.policy == s.h.policy && s'.h.before == s.h.before
    && s'.h.forced == s.h.forced && s.h.failed <= s'.h.failed
    && s.h.durable <= s'.h.durable && s.h.written <= s'.h.written
    && forall i :: s'.q.Count(PlainCmd(i)) == s.q.Count(PlainCmd(i))
                   && s'.h.completed[PlainCmd(i)] == s.h.completed[PlainCmd(i)]
  }

  lemma SteadyTrans(a: State, b: State, c: State)
    requires Steady(a, b) && Steady(b, c)
    ensures Steady(a, c)
  {
    forall i
      ensures c.q.Count(PlainCmd(i)) == a.q.Count(PlainCmd(i))
              && c.h.completed[PlainCmd(i)] == a.h.completed[PlainCmd(i)]
    {
      assert b.q.Count(PlainCmd(i)) == a.q.Count(PlainCmd(i));
    }
  }

  lemma KickSteady(s: State, hz: nat, now: nat)
    ensures Steady(s, Kick(s, hz, now)) && Kick(s, hz, now).h.failed == s.h.failed
  {
    hide Queue.Count;
    forall i
      ensures Kick(s, hz, now).q.Count(PlainCmd(i)) == s.q.Count(PlainCmd(i))
    {
      KickCounts(s, hz, now, PlainCmd(i));
    }
  }

  lemma PlaceSteady(s: State, id: nat, step: FSeq, first: bool, now: nat)
    requires id in s.q.rqs
    ensures var s' := Place(s, id, step, first, now); Steady(s, s') && s'.h.failed == s.h.failed
  {
    hide Queue.Count, Complete, Restore;
    forall i
      ensures Place(s, id, step, first, now).q.Count(PlainCmd(i)) == s.q.Count(PlainCmd(i))
    {
      PlaceCounts(s, id, step, first, now, PlainCmd(i));
    }
  }

  lemma SeqSteady(s: State, id: nat, done: set<FSeq>, error: bool, hz: nat, now: nat)
    requires id in s.q.rqs
    ensures var s' := CompleteSeq(s, id, done, error, hz, now); Steady(s, s') && s'.h.failed == s.h.failed
  {
    hide Kick, Place;
    var s1 := Marked(s, id, done);
    var step := if error then Done else CurSeq(s1.q.rqs[id].seq_);
    var s2 := Off(s1, id);
    assert Steady(s, s2);
    hide Steady, Off, Marked;
    PlaceSteady(s2, id, step, s.q.Pending() == [], now);
    var s3 := Place(s2, id, step, s.q.Pending() == [], now);
    KickSteady(s3, hz, now);
    SteadyTrans(s, s2, s3);
    SteadyTrans(s, s3, Kick(s3, hz, now));
  }

  lemma PushedSteady(s: State, id: nat, k: nat, error: bool, hz: nat, now: nat)
    requires id in s.q.rqs
    ensures var s' := Pushed(s, id, k, error, hz, now); Steady(s, s') && (!error ==> s'.h.failed == s.h.failed)
  {
    hide CompleteSeq;
    var step := CurSeq(s.q.rqs[id].seq_);
    var x := State(s.q, FlushLogged(s.h, id, step, k, error));
    assert Steady(s, x);
    hide Steady;
    SeqSteady(x, id, {step}, error, hz, now);
    SteadyTrans(s, x, Pushed(s, id, k, error, hz, now));
  }

  lemma {:induction false} WalkSteady(s: State, ids: seq<nat>, k: nat, error: bool, hz: nat, now: nat)
    requires forall id :: id in ids ==> id in s.q.rqs
    ensures var s' := Walk(s, ids, k, error, hz, now); Steady(s, s') && (!error ==> s'.h.failed == s.h.failed)
    decreases |ids|
  {
    if ids != [] {
      hide Pushed, Steady;
      var s1 := Pushed(s, ids[0], k, error, hz, now);
      PushedSteady(s, ids[0], k, error, hz, now);
      WalkSteady(s1, ids[1..], k, error, hz, now);
      SteadyTrans(s, s1, Walk(s, ids, k, error, hz, now));
    }
  }

  lemma FlushSteady(s: State, error: bool, hz: nat, now: nat)
    requires forall id :: id in s.q.List(s.q.runningIdx) ==> id in s.q.rqs
    ensures var s' := FlushEndIo(s, error, hz, now); Steady(s, s') && (!error ==> s'.h.failed == s.h.failed)
  {
    hide Walk;
    var x := Flipped(s, error);
    assert Steady(s, x);
    hide Steady;
    WalkSteady(x, s.q.List(s.q.runningIdx), s.h.issued, error, hz, now);
    SteadyTrans(s, x, FlushEndIo(s, error, hz, now));
  }

  lemma DataSteady(s: State, id: nat, error: bool, hz: nat, now: nat)
    requires id in s.q.rqs
    ensures var s' := DataEndIo(s, id, error, hz, now);
            Steady(s, s') && s'.h.failed == s.h.failed + if error then {id} else {}
  {
    hide CompleteSeq, Complete;
    var r := Released(s, DataCmd(id));
    var x := State(r.q.(rqs := s.q.rqs[id := Complete(s.q.rqs[id])]), DataLogged(r.h, id, error));
    assert Steady(s, x);
    hide Steady;
    SeqSteady(x, id, {Data}, error, hz, now);
    SteadyTrans(s, x, DataEndIo(s, id, error, hz, now));
  }

  // ---------------------------------------------------- one request over a run

  /** The flags of a request, and REQ_FUA of the device's flush_flags. */
  datatype Flags = Flags(devFua: bool, flush: bool, fua: bool, data: bool)

  /** Whether its data is only stable once the cache is flushed after it. */
  predicate Late(f: Flags) {
    f.fua && !f.devFua
  }

  /** What is recorded of a request that was inserted with these flags when
      `before` had been written. */
  ghost predicate Records(s: State, id: nat, f: Flags, before: set<nat>) {
    if id in s.q.rqs then
      && id in s.h.policy && id in s.h.before && s.h.before[id] == before
      && (Preflush in s.h.policy[id] <==> f.flush) && (Data in s.h.policy[id] <==> f.data)
      && (Postflush in s.h.policy[id] <==> Late(f))
      && (f.fua && f.devFua ==> id in s.h.forced) && (f.flush || !f.data || Late(f))
    else
      && f.data && !f.flush && !Late(f) && (f.fua ==> id in s.h.forced)
      && s.q.Count(PlainCmd(id)) + s.h.completed[PlainCmd(id)] == 1
      && (s.h.completed[PlainCmd(id)] == 1 ==>
            id in s.h.failed || (id in s.h.written && (f.fua ==> id in s.h.durable)))
  }

  lemma SteadyRecords(s: State, s': State, id: nat, f: Flags, before: set<nat>)
    requires Steady(s, s') && Records(s, id, f, before)
    ensures Records(s', id, f, before)
  {
    hide Queue.Count;
  }

  /** It has not happened yet that `id` was done outside the machinery. */
  ghost predicate PlainDoneOnce(s: State) {
    forall i :: s.h.completed[PlainCmd(i)] > 0 ==> i in s.h.written || i in s.h.failed
  }

  /** A request with data that needs no flush goes past the machinery. */
  predicate Past(f: Flags) {
    f.data && !f.flush && !Late(f)
  }

  function Forced(h: History, id: nat, f: Flags): History {
    h.(forced := h.forced + if f.fua && f.devFua then {id} else {})
  }

  /** A request queued as it is. */
  function QueuedPlain(s: State, id: nat, f: Flags): State {
    State(s.q.(head := s.q.head + [PlainCmd(id)]), Forced(s.h, id, f))
  }

  /** A request made part of a sequence, before its first step. */
  function Begun(s: State, id: nat, f: Flags): State {
    var h := Forced(s.h, id, f);
    State(s.q.(rqs := s.q.rqs[id := Rq({}, true, true, 0, 0)]),
          h.(policy := h.policy[id := Policy(true, f.devFua, f.flush, f.fua, f.data)], log := h.log[id := []],
             before := h.before[id := h.written]))
  }

  lemma InsertShape(s: State, id: nat, f: Flags, hz: nat, now: nat)
    ensures var s' := InsertFlush(s, id, true, f.devFua, f.flush, f.fua, f.data, hz, now);
            if Past(f) then s' == QueuedPlain(s, id, f) else Steady(Begun(s, id, f), s') && s'.h.failed == s.h.failed
  {
    hide CompleteSeq, Steady;
    if !Past(f) {
      SeqSteady(Begun(s, id, f), id, ACTIONS - Policy(true, f.devFua, f.flush, f.fua, f.data), false, hz, now);
    }
  }

  lemma BegunRecords(s: State, id: nat, f: Flags)
    requires !Past(f)
    ensures Records(Begun(s, id, f), id, f, s.h.written)
  {
  }

  lemma OnInsert(s: State, id: nat, f: Flags, hz: nat, now: nat)
    requires Fresh(s, id) && PlainDoneOnce(s)
    ensures Records(InsertFlush(s, id, true, f.devFua, f.flush, f.fua, f.data, hz, now), id, f, s.h.written)
  {
    hide InsertFlush, Steady, Begun;
    InsertShape(s, id, f, hz, now);
    if Past(f) {
      WriteCounts(s.q, id);
      hide Queue.Count;
    } else {
      BegunRecords(s, id, f);
      hide Records;
      SteadyRecords(Begun(s, id, f), InsertFlush(s, id, true, f.devFua, f.flush, f.fua, f.data, hz, now), id, f,
                    s.h.written);
    }
  }

  lemma BegunOther(s: State, id: nat, f: Flags, before: set<nat>, j: nat, g: Flags)
    requires Records(s, id, f, before) && j != id
    ensures Records(Begun(s, j, g), id, f, before)
  {
    hide Policy;
    var x := Begun(s, j, g);
    assert x.q.Count(PlainCmd(id)) == s.q.Count(PlainCmd(id));
    hide Queue.Count;
  }

  lemma PlainOther(s: State, id: nat, f: Flags, before: set<nat>, j: nat, g: Flags)
    requires Records(s, id, f, before) && j != id
    ensures Records(QueuedPlain(s, j, g), id, f, before)
  {
    WriteCounts(s.q, j);
    assert QueuedPlain(s, j, g).q.Count(PlainCmd(id)) == s.q.Count(PlainCmd(id));
    hide Queue.Count;
  }

  /** The insertion of another request. */
  lemma InsertOther(s: State, id: nat, f: Flags, before: set<nat>, j: nat, g: Flags, hz: nat, now: nat)
    requires Records(s, id, f, before) && j != id
    ensures Records(InsertFlush(s, j, true, g.devFua, g.flush, g.fua, g.data, hz, now), id, f, before)
  {
    hide *;
    InsertShape(s, j, g, hz, now);
    if Past(g) {
      PlainOther(s, id, f, before, j, g);
    } else {
      BegunOther(s, id, f, before, j, g);
      SteadyRecords(Begun(s, j, g), InsertFlush(s, j, true, g.devFua, g.flush, g.fua, g.data, hz, now), id, f, before);
    }
  }

  lemma PlainDoneRecords(s: State, id: nat, f: Flags, before: set<nat>, j: nat, error: bool)
    requires Records(s, id, f, before) && PlainCmd(j) in s.q.device && (id in s.q.rqs ==> j != id)
    ensures Records(PlainEndIo(s, j, error), id, f, before)
  {
    ReleasedCounts(s, PlainCmd(j));
    if id !in s.q.rqs && j == id {
      HeldCounts(s.q, PlainCmd(j));
    }
    hide Queue.Count;
  }

  /** A request with records is not inserted again. */
  lemma RecordedIsKnown(s: State, id: nat, f: Flags, before: set<nat>)
    requires Records(s, id, f, before)
    ensures !Fresh(s, id)
  {
    hide Queue.Count;
  }

  lemma FetchRecords(s: State, id: nat, f: Flags, before: set<nat>)
    requires s.q.head != [] && Records(s, id, f, before)
    ensures Records(s.(q := Fetched(s.q)), id, f, before)
  {
    FetchCounts(s.q, PlainCmd(id));
    hide Queue.Count;
  }

  lemma NextRecords(s: State, e: Event, hz: nat, now: nat, id: nat, f: Flags, before: set<nat>)
    requires Inv(s) && Enabled(s, e) && Records(s, id, f, before)
    ensures Records(Next(s, e, hz, now), id, f, before)
  {
    hide Inv, Records, InsertFlush, DataEndIo, FlushEndIo, PlainEndIo, Steady, Fresh, Fetched, Queue.Count;
    RecordedIsKnown(s, id, f, before);
    match e
    case Insert(j, devFua, flush, fua, data) =>
      InsertOther(s, id, f, before, j, Flags(devFua, flush, fua, data), hz, now);
    case Write(j) =>
      PlainOther(s, id, f, before, j, Flags(false, false, false, true));
      assert Forced(s.h, j, Flags(false, false, false, true)) == s.h;
    case Fetch => FetchRecords(s, id, f, before);
    case DataDone(j, error) =>
      DataSteady(s, j, error, hz, now);
      SteadyRecords(s, Next(s, e, hz, now), id, f, before);
    case FlushDone(error) =>
      FlushSteady(s, error, hz, now);
      SteadyRecords(s, Next(s, e, hz, now), id, f, before);
    case PlainDone(j, error) =>
      NoPlain(s);
      HeldCounts(s.q, PlainCmd(j));
      PlainDoneRecords(s, id, f, before, j, error);
  }

  lemma PlainDoneNext(s: State, e: Event, hz: nat, now: nat)
    requires Inv(s) && Enabled(s, e) && PlainDoneOnce(s)
    ensures PlainDoneOnce(Next(s, e, hz, now))
  {
    hide Inv, Queue.Count;
    match e
    case Insert(j, devFua, flush, fua, data) => InsertDoneOnce(s, j, Flags(devFua, flush, fua, data), hz, now);
    case DataDone(j, error) =>
      hide DataEndIo;
      DataSteady(s, j, error, hz, now);
    case FlushDone(error) =>
      hide FlushEndIo;
      FlushSteady(s, error, hz, now);
    case _ =>
  }

  lemma InsertDoneOnce(s: State, j: nat, g: Flags, hz: nat, now: nat)
    requires PlainDoneOnce(s)
    ensures PlainDoneOnce(InsertFlush(s, j, true, g.devFua, g.flush, g.fua, g.data, hz, now))
  {
    hide InsertFlush, Policy, Queue.Count;
    InsertShape(s, j, g, hz, now);
  }

  lemma {:induction false} ReachedDoneOnce(s: State, hz: nat, es: seq<(Event, nat)>)
    requires Reached(s, hz, es)
    ensures PlainDoneOnce(s)
    decreases |es|
  {
    if es != [] {
      var (e, now) := es[|es| - 1];
      var s0 :| Reached(s0, hz, es[..|es| - 1]) && Enabled(s0, e) && s == Next(s0, e, hz, now);
      ReachedInv(s0, hz, es[..|es| - 1]);
      ReachedDoneOnce(s0, hz, es[..|es| - 1]);
      hide Inv, Next, Enabled, PlainDoneOnce;
      PlainDoneNext(s0, e, hz, now);
    }
  }

  /** A run leads to one state. */
  lemma {:induction false} ReachedOne(s: State, s': State, hz: nat, es: seq<(Event, nat)>)
    requires Reached(s, hz, es) && Reached(s', hz, es)
    ensures s == s'
    decreases |es|
  {
    if es != [] {
      var (e, now) := es[|es| - 1];
      var s0 :| Reached(s0, hz, es[..|es| - 1]) && Enabled(s0, e) && s == Next(s0, e, hz, now);
      var s1 :| Reached(s1, hz, es[..|es| - 1]) && Enabled(s1, e) && s' == Next(s1, e, hz, now);
      ReachedOne(s0, s1, hz, es[..|es| - 1]);
    }
  }

  /** Event `i` of the run inserts `id` with these flags, in state `s0`. */
  ghost predicate Inserted(s0: State, hz: nat, es: seq<(Event, nat)>, i: nat, id: nat, f: Flags) {
    i < |es| && Reached(s0, hz, es[..i]) && es[i].0 == Insert(id, f.devFua, f.flush, f.fua, f.data)
  }

  lemma {:induction false} RunRecords(s0: State, s: State, hz: nat, es: seq<(Event, nat)>, i: nat, id: nat, f: Flags)
    requires Reached(s, hz, es) && Inserted(s0, hz, es, i, id, f)
    ensures Records(s, id, f, s0.h.written)
    decreases |es|
  {
    hide Inv, Records, Next, Enabled, PlainDoneOnce;
    var n := |es| - 1;
    var (e, now) := es[n];
    var r :| Reached(r, hz, es[..n]) && Enabled(r, e) && s == Next(r, e, hz, now);
    hide Reached;
    ReachedInv(r, hz, es[..n]);
    if i == n {
      ReachedOne(s0, r, hz, es[..n]);
      ReachedDoneOnce(r, hz, es[..n]);
      InsertRecords(r, e, hz, now, id, f);
    } else {
      assert es[..n][..i] == es[..i];
      RunRecords(s0, r, hz, es[..n], i, id, f);
      NextRecords(r, e, hz, now, id, f, s0.h.written);
    }
  }

  lemma InsertRecords(s: State, e: Event, hz: nat, now: nat, id: nat, f: Flags)
    requires Enabled(s, e) && PlainDoneOnce(s) && e == Insert(id, f.devFua, f.flush, f.fua, f.data)
    ensures Records(Next(s, e, hz, now), id, f, s.h.written)
  {
    hide Records, InsertFlush, PlainDoneOnce, Fresh;
    OnInsert(s, id, f, hz, now);
  }

  // ----------------------------------------------------------------- promises

  /** The request has been completed to whoever submitted it: its bio has been
      ended, or its command outside the machinery is done. */
  ghost predicate Over(s: State, id: nat) {
    if id in s.q.rqs then s.q.rqs[id].bioEnds > 0 else s.h.completed[PlainCmd(id)] > 0
  }

  /** What the write cache documentation promises, for the flags a request was
      inserted with, however the device does it. A request that did not fail:
      with REQ_FLUSH, when its data is with the device or done, and when it is
      over, every write completed before it was inserted is on stable storage;
      with REQ_FUA, when it is over, so is its own data. */
  lemma {:induction false} StableStorage(s0: State, s: State, hz: nat, es: seq<(Event, nat)>, i: nat, id: nat, f: Flags)
    requires Reached(s, hz, es) && Inserted(s0, hz, es, i, id, f) && id !in s.h.failed
    ensures f.flush && (s.q.Count(DataCmd(id)) > 0 || s.h.completed[DataCmd(id)] > 0 || Over(s, id)) ==>
              s0.h.written <= s.h.durable
    ensures f.data && Over(s, id) ==> id in s.h.written
    ensures f.fua && f.data && Over(s, id) ==> id in s.h.durable
  {
    hide Reached, Inserted;
    RunRecords(s0, s, hz, es, i, id, f);
    ReachedInv(s, hz, es);
    if id in s.q.rqs {
      StepsInOrder(s, hz, es, id);
      SequencedStable(s, id, f, s0.h.written);
    }
  }

  lemma SequencedStable(s: State, id: nat, f: Flags, before: set<nat>)
    requires Inv(s) && id in s.q.rqs && Records(s, id, f, before) && id !in s.h.failed && id in s.h.log
    requires s.h.completed[DataCmd(id)] == if Data in s.h.log[id] then 1 else 0
    requires s.q.rqs[id].bioEnds == if Live(s.q, id) then 0 else 1
    ensures f.flush && (s.q.Count(DataCmd(id)) > 0 || s.h.completed[DataCmd(id)] > 0 || !Live(s.q, id)) ==>
              before <= s.h.durable
    ensures f.data && !Live(s.q, id) ==> id in s.h.written
    ensures f.fua && f.data && !Live(s.q, id) ==> id in s.h.durable
  {
    assert DataCmdOk(s, id);
    BaseRq(s, id);
    hide Inv, Base, Queue.Count, Running, Finished;
    StableRq(s, id);
    if f.flush && Data in s.h.log[id] {
      FlushedFirst(s, id);
    }
  }

  lemma FlushedFirst(s: State, id: nat)
    requires Inv(s) && id in s.q.rqs && id in s.h.log && Data in s.h.log[id] && id in s.h.policy
    requires Preflush in s.h.policy[id] && id in s.h.before
    ensures s.h.before[id] <= s.h.durable
  {
    BaseRq(s, id);
    var log, all := s.h.log[id], Steps(s.h.policy[id]);
    assert log <= all && |log| > 0 && log[0] == all[0];
    hide Base, Buffers;
  }

  /** The steps a request goes through for its flags. */
  function Wanted(f: Flags): seq<FSeq> {
    (if f.flush then [Preflush] else []) + (if f.data then [Data] else []) + (if Late(f) then [Postflush] else [])
  }

  /** And it gets no step more: a request goes past the machinery as one command
      exactly if it has data and needs no flush; else, once over, it has gone
      through the steps its flags ask for, in order, unless it failed. */
  lemma {:induction false} StepsForFlags(s0: State, s: State, hz: nat, es: seq<(Event, nat)>, i: nat, id: nat, f: Flags)
    requires Reached(s, hz, es) && Inserted(s0, hz, es, i, id, f)
    ensures id in s.q.rqs <==> f.flush || !f.data || Late(f)
    ensures id !in s.q.rqs ==> s.q.Count(PlainCmd(id)) + s.h.completed[PlainCmd(id)] == 1
    ensures id in s.q.rqs ==> id in s.h.log && s.h.log[id] <= Wanted(f)
    ensures id in s.q.rqs && id !in s.h.failed ==> (Over(s, id) <==> s.h.log[id] == Wanted(f))
  {
    hide Reached, Inserted;
    RunRecords(s0, s, hz, es, i, id, f);
    if id in s.q.rqs {
      StepsInOrder(s, hz, es, id);
      assert Steps(s.h.policy[id]) == Wanted(f);
    }
  }

  /** When no command is left every request inserted is over. */
  lemma {:induction false} QuietIsOver(s0: State, s: State, hz: nat, es: seq<(Event, nat)>, i: nat, id: nat, f: Flags)
    requires Reached(s, hz, es) && Inserted(s0, hz, es, i, id, f) && s.q.head == [] && s.q.device == multiset{}
    ensures Over(s, id)
  {
    hide Reached, Inserted;
    RunRecords(s0, s, hz, es, i, id, f);
    if id in s.q.rqs {
      QuietIsFinished(s, hz, es, id);
    }
  }

  /** An error reported by the device that can fail `id`. */
  predicate Fails(e: Event, id: nat) {
    e == FlushDone(true) || e == DataDone(id, true) || e == PlainDone(id, true)
  }

  lemma NextFailed(s: State, e: Event, hz: nat, now: nat, id: nat)
    requires Enabled(s, e)
    ensures id in Next(s, e, hz, now).h.failed ==> id in s.h.failed || Fails(e, id)
  {
    hide InsertFlush, DataEndIo, FlushEndIo, Steady, Fresh, Begun, Queue.Count;
    match e
    case Insert(j, devFua, flush, fua, data) => InsertShape(s, j, Flags(devFua, flush, fua, data), hz, now);
    case DataDone(j, error) => DataSteady(s, j, error, hz, now);
    case FlushDone(error) => FlushSteady(s, error, hz, now);
    case PlainDone(j, error) => assert PlainEndIo(s, j, error).h.failed == s.h.failed + if error then {j} else {};
    case _ =>
  }

  /** Only an error of the device fails a request. */
  lemma {:induction false} FailedByDevice(s: State, hz: nat, es: seq<(Event, nat)>, id: nat)
    requires Reached(s, hz, es) && id in s.h.failed
    ensures exists j :: 0 <= j < |es| && Fails(es[j].0, id)
    decreases |es|
  {
    if es != [] {
      var n := |es| - 1;
      var (e, now) := es[n];
      var r :| Reached(r, hz, es[..n]) && Enabled(r, e) && s == Next(r, e, hz, now);
      if id in r.h.failed {
        FailedByDevice(r, hz, es[..n], id);
        var j :| 0 <= j < n && Fails(es[..n][j].0, id);
        assert es[..n][j] == es[j];
      } else {
        NextFailed(r, e, hz, now, id);
        assert Fails(es[n].0, id);
      }
    }
  }
  // ----------------------------------------------------- the order of commands

  /** `b` is `a` with data commands put in front and other commands behind. */
  ghost predicate Wraps(a: seq<Cmd>, b: seq<Cmd>, front: seq<Cmd>, back: seq<Cmd>) {
    && b == front + a + back
    && (forall i :: 0 <= i < |front| ==> front[i].DataCmd?) && (forall i :: 0 <= i < |back| ==> !back[i].DataCmd?)
  }

  ghost predicate Wrapped(a: seq<Cmd>, b: seq<Cmd>) {
    exists front, back :: Wraps(a, b, front, back)
  }

  lemma WrappedTrans(a: seq<Cmd>, b: seq<Cmd>, c: seq<Cmd>)
    requires Wrapped(a, b) && Wrapped(b, c)
    ensures Wrapped(a, c)
  {
    var d, t :| Wraps(a, b, d, t);
    var d', t' :| Wraps(b, c, d', t');
    assert c == (d' + d) + a + (t + t');
    assert Wraps(a, c, d' + d, t + t');
  }

  lemma WrappedSame(a: seq<Cmd>)
    ensures Wrapped(a, a)
  {
    assert Wraps(a, a, [], []);
  }

  lemma KickWraps(s: State, hz: nat, now: nat)
    ensures Wrapped(s.q.head, Kick(s, hz, now).q.head)
  {
    var r := Kick(s, hz, now);
    if r.q.head == s.q.head {
      WrappedSame(s.q.head);
    } else {
      assert Wraps(s.q.head, r.q.head, [], [FlushCmd]);
    }
  }

  lemma PlaceWraps(s: State, id: nat, step: FSeq, first: bool, now: nat)
    requires id in s.q.rqs
    ensures Wrapped(s.q.head, Place(s, id, step, first, now).q.head)
  {
    hide Complete, Restore;
    var r := Place(s, id, step, first, now);
    if step == Data {
      assert Wraps(s.q.head, r.q.head, [DataCmd(id)], []);
    } else {
      assert r.q.head == s.q.head;
      WrappedSame(s.q.head);
    }
  }

  lemma SeqWraps(s: State, id: nat, done: set<FSeq>, error: bool, hz: nat, now: nat)
    requires id in s.q.rqs
    ensures Wrapped(s.q.head, CompleteSeq(s, id, done, error, hz, now).q.head)
  {
    hide Kick, Place, Wrapped;
    var s1 := Marked(s, id, done);
    var step := if error then Done else CurSeq(s1.q.rqs[id].seq_);
    var s2 := Off(s1, id);
    PlaceWraps(s2, id, step, s.q.Pending() == [], now);
    var s3 := Place(s2, id, step, s.q.Pending() == [], now);
    KickWraps(s3, hz, now);
    WrappedTrans(s.q.head, s3.q.head, Kick(s3, hz, now).q.head);
  }

  lemma {:induction false} WalkWraps(s: State, ids: seq<nat>, k: nat, error: bool, hz: nat, now: nat)
    requires forall id :: id in ids ==> id in s.q.rqs
    ensures Wrapped(s.q.head, Walk(s, ids, k, error, hz, now).q.head)
    decreases |ids|
  {
    hide CompleteSeq, Wrapped;
    if ids == [] {
      WrappedSame(s.q.head);
    } else {
      var step := CurSeq(s.q.rqs[ids[0]].seq_);
      SeqWraps(State(s.q, FlushLogged(s.h, ids[0], step, k, error)), ids[0], {step}, error, hz, now);
      var s1 := Pushed(s, ids[0], k, error, hz, now);
      hide Pushed;
      WalkWraps(s1, ids[1..], k, error, hz, now);
      WrappedTrans(s.q.head, s1.q.head, Walk(s, ids, k, error, hz, now).q.head);
    }
  }

  lemma InsertWraps(s: State, id: nat, f: Flags, hz: nat, now: nat)
    ensures Wrapped(s.q.head, InsertFlush(s, id, true, f.devFua, f.flush, f.fua, f.data, hz, now).q.head)
  {
    hide CompleteSeq, Wrapped;
    if Past(f) {
      PlainWraps(s.q.head, id);
    } else {
      SeqWraps(Begun(s, id, f), id, ACTIONS - Policy(true, f.devFua, f.flush, f.fua, f.data), false, hz, now);
    }
  }

  lemma PlainWraps(head: seq<Cmd>, id: nat)
    ensures Wrapped(head, head + [PlainCmd(id)])
  {
    assert Wraps(head, head + [PlainCmd(id)], [], [PlainCmd(id)]);
  }

  /** In which order the driver gets the commands: it takes the first one; the
      data of sequenced requests goes before all that is queued, and a flush and a
      request outside the machinery behind it. */
  lemma NextHead(s: State, e: Event, hz: nat, now: nat)
    requires Enabled(s, e)
    ensures var s' := Next(s, e, hz, now);
            if e.Fetch? then s.q.head == [s.q.head[0]] + s'.q.head && s'.q.device == s.q.device + multiset{s.q.head[0]}
            else Wrapped(s.q.head, s'.q.head)
  {
    hide InsertFlush, Wrapped, Walk, CompleteSeq, Fresh, Complete;
    match e
    case Insert(id, devFua, flush, fua, data) => InsertWraps(s, id, Flags(devFua, flush, fua, data), hz, now);
    case Write(id) => PlainWraps(s.q.head, id);
    case Fetch =>
    case DataDone(id, error) =>
      var r := Released(s, DataCmd(id));
      SeqWraps(State(r.q.(rqs := s.q.rqs[id := Complete(s.q.rqs[id])]), DataLogged(r.h, id, error)), id, {Data}, error,
               hz, now);
    case FlushDone(error) => WalkWraps(Flipped(s, error), s.q.List(s.q.runningIdx), s.h.issued, error, hz, now);
    case PlainDone(id, error) => WrappedSame(s.q.head);
  }
}

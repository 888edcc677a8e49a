/** The FLUSH/FUA sequencer of block/blk-flush.c: requests go through the steps
    PREFLUSH, DATA and POSTFLUSH that their policy asks for, sharing double
    buffered cache flushes of which one is in flight at a time.

    A step under the queue lock is atomic. `History` records what happened; no
    operation of the queue looks at it.
 */
module Flush {
  import opened Lists

  const FLUSH_PENDING_TIMEOUT_SECONDS: nat := 5

  /** REQ_FSEQ_*. */
  datatype FSeq = Preflush | Data | Postflush | Done

  const ACTIONS: set<FSeq> := {Preflush, Data, Postflush}

  /** A sequenced request: the steps done (or not needed), whether its bio is
      attached, REQ_FLUSH_SEQ, how often it completed and its bio was ended. */
  datatype Rq = Rq(seq_: set<FSeq>, hasBio: bool, inSeq: bool, completions: nat, bioEnds: nat)

  /** A command for the device: the flush request, the data of a sequenced
      request, or a request outside the machinery. */
  datatype Cmd = FlushCmd | DataCmd(id: nat) | PlainCmd(id: nat)

  /** The flush part of a request_queue; an index of flush_queue[2] is a bool.
      Commands wait in the dispatch queue `head` until the driver takes them;
      `device` are those it has taken and not completed. */
  datatype Queue = Queue(rqs: map<nat, Rq>, list0: seq<nat>, list1: seq<nat>, pendingIdx: bool, runningIdx: bool,
                         pendingSince: nat, dataInFlight: seq<nat>, head: seq<Cmd>, device: multiset<Cmd>)
  {
    function List(idx: bool): seq<nat> {
      if idx then list1 else list0
    }

    function Pending(): seq<nat> {
      List(pendingIdx)
    }

    predicate InFlight() {
      pendingIdx != runningIdx
    }

    /** How often a command is queued or with the driver. */
    function Count(c: Cmd): nat {
      multiset(head)[c] + device[c]
    }
  }

  /** What happened: per sequenced request its policy, the steps it performed,
      the writes that had completed when it was inserted, and when it last
      joined a flush list the flushes issued so far and the time; the requests waiting
      for, and the writes completed before, the last flush issued; the writes
      completed, and those known to be on stable storage; the requests that
      failed; for each flush step satisfied, the flush that satisfied it; and
      the commands the device has completed. */
  datatype History = History(policy: map<nat, set<FSeq>>, log: map<nat, seq<FSeq>>, before: map<nat, set<nat>>,
                             joined: map<nat, nat>, since: map<nat, nat>, issued: nat, waiting: seq<nat>,
                             snapshot: set<nat>, written: set<nat>, durable: set<nat>, forced: set<nat>,
                             failed: set<nat>, served: seq<Served>, completed: multiset<Cmd>)

  datatype Served = Served(id: nat, joined: nat, flush: nat)

  datatype State = State(q: Queue, h: History)

  // --------------------------------------------------------------- operations

  /** blk_flush_policy, for a device whose flush_flags hold REQ_FLUSH (`cache`)
      and REQ_FUA (`devFua`). */
  function Policy(cache: bool, devFua: bool, flush: bool, fua: bool, data: bool): set<FSeq> {
    if cache then
      (if flush then {Preflush} else {}) + (if data then {Data} else {}) + (if !devFua && fua then {Postflush} else {})
    else {}
  }

  /** blk_flush_cur_seq: the first step not done. */
  function CurSeq(s: set<FSeq>): FSeq {
    if Preflush !in s then Preflush else if Data !in s then Data else if Postflush !in s then Postflush else Done
  }

  /** list_del_init(&rq->flush.list). */
  function Unlink(q: Queue, id: nat): Queue {
    q.(list0 := Without(q.list0, id), list1 := Without(q.list1, id), dataInFlight := Without(q.dataInFlight, id))
  }

  function Append(q: Queue, idx: bool, id: nat): Queue {
    if idx then q.(list1 := q.list1 + [id]) else q.(list0 := q.list0 + [id])
  }

  /** A whole completion of a request: its bio is only ended outside a sequence
      (req_bio_endio), and is detached. */
  function Complete(r: Rq): Rq {
    r.(completions := r.completions + 1, hasBio := false,
       bioEnds := r.bioEnds + if r.hasBio && !r.inSeq then 1 else 0)
  }

  /** blk_flush_restore_request. */
  function Restore(r: Rq): Rq {
    r.(hasBio := true, inSeq := false)
  }

  /** blk_kick_flush: issue a flush for all that wait, unless one is in flight
      (C1) or data is being written and nothing has waited too long (C2, C3). */
  function Kick(s: State, hz: nat, now: nat): (r: State)
    ensures r.q.rqs == s.q.rqs
    ensures r.h == s.h.(issued := r.h.issued, waiting := r.h.waiting, snapshot := r.h.snapshot)
    ensures r.q.runningIdx == s.q.runningIdx && |r.q.head| >= |s.q.head|
  {
    var q := s.q;
    if q.InFlight() || q.Pending() == [] then s
    else if q.dataInFlight != [] && now < q.pendingSince + FLUSH_PENDING_TIMEOUT_SECONDS * hz then s
    else
      State(q.(pendingIdx := !q.pendingIdx, head := q.head + [FlushCmd]),
            s.h.(issued := s.h.issued + 1, waiting := q.Pending(), snapshot := s.h.written))
  }

  /** list_del_init, before a request is put where its next step needs it. */
  function Off(s: State, id: nat): State {
    s.(q := Unlink(s.q, id))
  }

  /** Queue a request for the next flush. */
  function Join(s: State, id: nat, first: bool, now: nat): State {
    State(Append(s.q.(pendingSince := if first then now else s.q.pendingSince), s.q.pendingIdx, id),
          s.h.(joined := s.h.joined[id := s.h.issued], since := s.h.since[id := now]))
  }

  /** The switch of blk_flush_complete_seq: start step `step` of request `id`;
      `first` says that the pending list was empty. */
  function Place(s: State, id: nat, step: FSeq, first: bool, now: nat): (r: State)
    requires id in s.q.rqs
    ensures r.q.rqs.Keys == s.q.rqs.Keys && r.h == s.h.(joined := r.h.joined, since := r.h.since)
    ensures r.q.runningIdx == s.q.runningIdx && |r.q.head| == |s.q.head| + if step == Data then 1 else 0
  {
    var q := s.q;
    match step
    case Data =>
      s.(q := q.(dataInFlight := q.dataInFlight + [id], head := [DataCmd(id)] + q.head))
    case Done =>
      s.(q := q.(rqs := q.rqs[id := Complete(Restore(q.rqs[id]))]))
    case _ => Join(s, id, first, now)
  }

  /** A request after flush.seq |= done. */
  function Marked(s: State, id: nat, done: set<FSeq>): State
    requires id in s.q.rqs
  {
    s.(q := s.q.(rqs := s.q.rqs[id := s.q.rqs[id].(seq_ := s.q.rqs[id].seq_ + done)]))
  }

  /** blk_flush_complete_seq: `done` is completed, go on with the next step. */
  function CompleteSeq(s: State, id: nat, done: set<FSeq>, error: bool, hz: nat, now: nat): (r: State)
    requires id in s.q.rqs
    ensures r.q.rqs.Keys == s.q.rqs.Keys && r.h.log == s.h.log && r.h.policy == s.h.policy
    ensures r.h.durable == s.h.durable && r.h.failed == s.h.failed
    ensures r.q.runningIdx == s.q.runningIdx && |r.q.head| >= |s.q.head|
  {
    var s1 := Marked(s, id, done);
    var step := if error then Done else CurSeq(s1.q.rqs[id].seq_);
    Kick(Place(Off(s1, id), id, step, s.q.Pending() == [], now), hz, now)
  }

  /** What the record says once `id` has performed `step`. */
  function Logged(h: History, id: nat, step: FSeq, error: bool): History {
    if error then h.(failed := h.failed + {id})
    else if id in h.log then h.(log := h.log[id := h.log[id] + [step]])
    else h
  }

  /** The walk of flush_end_io over the requests that waited for flush `k`. */
  function Walk(s: State, ids: seq<nat>, k: nat, error: bool, hz: nat, now: nat): State
    requires forall id :: id in ids ==> id in s.q.rqs
    decreases |ids|
  {
    if ids == [] then s
    else
      Walk(Pushed(s, ids[0], k, error, hz, now), ids[1..], k, error, hz, now)
  }

  /** One turn of that walk: the current step of `id` is complete. */
  function Pushed(s: State, id: nat, k: nat, error: bool, hz: nat, now: nat): (r: State)
    requires id in s.q.rqs
    ensures r.q.rqs.Keys == s.q.rqs.Keys && r.q.runningIdx == s.q.runningIdx && |r.q.head| >= |s.q.head|
  {
    var step := CurSeq(s.q.rqs[id].seq_);
    CompleteSeq(State(s.q, FlushLogged(s.h, id, step, k, error)), id, {step}, error, hz, now)
  }

  /** The record of a flush step of `id` that flush `k` satisfied. */
  function FlushLogged(h: History, id: nat, step: FSeq, k: nat, error: bool): History {
    var joined := if id in h.joined then h.joined[id] else 0;
    Logged(h, id, step, error).(served := h.served + [Served(id, joined, k)])
  }

  /** The driver gives a command back. */
  function Released(s: State, c: Cmd): State {
    State(s.q.(device := s.q.device - multiset{c}), s.h.(completed := s.h.completed + multiset{c}))
  }

  /** The start of flush_end_io: the flush in flight is over, and unless it
      failed, what had been written before it was issued is stable. */
  function Flipped(s: State, error: bool): State {
    var r := Released(s, FlushCmd);
    State(r.q.(runningIdx := !r.q.runningIdx), if error then r.h else r.h.(durable := r.h.durable + r.h.snapshot))
  }

  /** flush_end_io: the driver has completed the flush. */
  function FlushEndIo(s: State, error: bool, hz: nat, now: nat): State
    requires forall id :: id in s.q.List(s.q.runningIdx) ==> id in s.q.rqs
  {
    Walk(Flipped(s, error), s.q.List(s.q.runningIdx), s.h.issued, error, hz, now)
  }

  /** flush_data_end_io, reached when the driver completes the data of `id`. */
  function DataEndIo(s: State, id: nat, error: bool, hz: nat, now: nat): State
    requires id in s.q.rqs
  {
    var r := Released(s, DataCmd(id));
    var q := r.q.(rqs := s.q.rqs[id := Complete(s.q.rqs[id])]);
    CompleteSeq(State(q, DataLogged(r.h, id, error)), id, {Data}, error, hz, now)
  }

  /** The record of completed data: written, and stable if written through. */
  function DataLogged(h: History, id: nat, error: bool): History {
    if error then Logged(h, id, Data, error)
    else Logged(h, id, Data, error).(written := h.written + {id},
                                     durable := h.durable + (if id in h.forced then {id} else {}))
  }

  /** blk_insert_flush: a request that needs no flush is dispatched as it is. */
  function InsertFlush(s: State, id: nat, cache: bool, devFua: bool, flush: bool, fua: bool, data: bool,
                       hz: nat, now: nat): State
  {
    var policy := Policy(cache, devFua, flush, fua, data);
    var h := s.h.(forced := s.h.forced + if fua && devFua then {id} else {});
    if Data in policy && Preflush !in policy && Postflush !in policy then
      State(s.q.(head := s.q.head + [PlainCmd(id)]), h)
    else
      var q := s.q.(rqs := s.q.rqs[id := Rq({}, true, true, 0, 0)]);
      var h' := h.(policy := h.policy[id := policy], log := h.log[id := []], before := h.before[id := h.written]);
      CompleteSeq(State(q, h'), id, ACTIONS - policy, false, hz, now)
  }

  // ---------------------------------------------------------------- invariants

  /** The steps of a policy, in order. */
  function Steps(policy: set<FSeq>): seq<FSeq> {
    (if Preflush in policy then [Preflush] else []) + (if Data in policy then [Data] else []) +
    (if Postflush in policy then [Postflush] else [])
  }

  /** The step a request is at, given the steps it has performed. */
  function At(policy: set<FSeq>, log: seq<FSeq>): FSeq {
    if |log| < |Steps(policy)| then Steps(policy)[|log|] else Done
  }

  /** The `flush.seq` of a request that has performed `log`. */
  function SeqFor(policy: set<FSeq>, log: seq<FSeq>): set<FSeq> {
    set a | a in ACTIONS && (a !in policy || a in log)
  }

  predicate Disjoint(a: seq<nat>, b: seq<nat>) {
    forall x :: x in a ==> x !in b
  }

  predicate OnFlush(q: Queue, id: nat) {
    id in q.list0 || id in q.list1
  }

  predicate Live(q: Queue, id: nat) {
    OnFlush(q, id) || id in q.dataInFlight
  }

  /** The flush lists and the list of data in flight. */
  predicate ListsOk(q: Queue) {
    && Distinct(q.list0) && Distinct(q.list1) && Distinct(q.dataInFlight)
    && Disjoint(q.list0, q.list1) && Disjoint(q.list0, q.dataInFlight) && Disjoint(q.list1, q.dataInFlight)
  }

  /** What a request on the lists looks like; data comes with POSTFLUSH, as a
      request without data only makes sense with REQ_FLUSH. */
  predicate Running(r: Rq, policy: set<FSeq>, log: seq<FSeq>) {
    && r.seq_ == SeqFor(policy, log) && log < Steps(policy)
    && r.inSeq && r.bioEnds == 0 && r.hasBio == (Data !in log)
    && r.completions == if Data in log then 1 else 0
  }

  /** What a finished request looks like: its bio was ended once; unless it
      failed, after all its steps. */
  predicate Finished(r: Rq, policy: set<FSeq>, log: seq<FSeq>, failed: bool) {
    && !r.inSeq && r.bioEnds == 1 && log <= Steps(policy)
    && (!failed ==> log == Steps(policy) && r.completions == if Data in policy then 2 else 1)
  }

  /** What its performed steps have brought about: everything written before a
      request with PREFLUSH was inserted is stable, its own data is written,
      and stable if written through or POSTFLUSHed. */
  predicate Effects(h: History, id: nat, log: seq<FSeq>, before: set<nat>) {
    && before <= h.written
    && (Preflush in log ==> before <= h.durable)
    && (Data in log ==> id in h.written && (id in h.forced ==> id in h.durable))
    && (Postflush in log ==> id in h.durable)
  }

  predicate PolicyOk(policy: set<FSeq>) {
    policy <= ACTIONS && (Postflush in policy ==> Data in policy)
  }

  predicate Keyed(s: State) {
    s.h.policy.Keys == s.q.rqs.Keys && s.h.log.Keys == s.q.rqs.Keys && s.h.before.Keys == s.q.rqs.Keys
  }

  predicate RqOk(s: State, id: nat)
    requires Keyed(s) && id in s.q.rqs
  {
    var (r, policy, log) := (s.q.rqs[id], s.h.policy[id], s.h.log[id]);
    && PolicyOk(policy) && Effects(s.h, id, log, s.h.before[id])
    && r.completions == s.h.completed[DataCmd(id)] + (if Live(s.q, id) then 0 else 1)
    && (if Live(s.q, id) then Running(r, policy, log) && id !in s.h.failed
        else Finished(r, policy, log, id in s.h.failed))
  }

  /** A request is on the list of the step it is at. */
  ghost predicate Placed(s: State, id: nat)
    requires Keyed(s) && id in s.q.rqs
  {
    var at := At(s.h.policy[id], s.h.log[id]);
    && (id in s.q.dataInFlight ==> at == Data)
    && (OnFlush(s.q, id) ==> (at == Preflush || at == Postflush) && id in s.h.joined)
  }

  /** A flush that covers a waiting request was issued after it joined, when
      its data and everything it must follow had been written. */
  ghost predicate CoveredBy(h: History, id: nat, flush: nat, stable: set<nat>) {
    && id in h.joined && h.joined[id] < flush
    && id in h.before && h.before[id] <= stable
    && id in h.log && (Data in h.log[id] ==> id in stable)
  }

  /** One flush command exists, queued or with the driver, while a flush is in
      flight, and none else; the flushes issued are those completed and this. */
  predicate FlushCmdOk(s: State) {
    && s.q.Count(FlushCmd) == (if s.q.InFlight() then 1 else 0)
    && s.h.issued == s.h.completed[FlushCmd] + s.q.Count(FlushCmd)
  }

  /** One data command exists for a request with data in flight, and none else;
      a sequenced request has no other command. */
  predicate DataCmdOk(s: State, id: nat) {
    && s.q.Count(DataCmd(id)) == (if id in s.q.dataInFlight then 1 else 0)
    && (if id in s.q.rqs then s.q.Count(PlainCmd(id)) == 0 else s.h.completed[DataCmd(id)] == 0)
  }

  ghost predicate CmdsOk(s: State, out: set<nat>) {
    FlushCmdOk(s) && forall id :: id !in out ==> DataCmdOk(s, id)
  }

  ghost predicate ServedOk(h: History) {
    && (forall i :: 0 <= i < |h.served| ==> h.served[i].joined < h.served[i].flush <= h.completed[FlushCmd])
    && (forall id :: id in h.joined ==> h.joined[id] <= h.issued)
    && h.snapshot <= h.written
  }

  /** What holds of every request; those in `out` are off the lists and may be
      on their way from one step to the next. */
  ghost predicate Base(s: State, out: set<nat>) {
    && Keyed(s) && ListsOk(s.q) && CmdsOk(s, out) && ServedOk(s.h)
    && (forall i :: Live(s.q, i) ==> i in s.q.rqs && i !in out)
    && (forall i :: i in s.q.rqs && i !in out ==> RqOk(s, i) && Placed(s, i))
  }

  /** The double buffer, while the requests `ids` that waited for flush `k` are
      still to be pushed on (none between calls): a flush in flight serves
      exactly the list it was issued for, and the other list collects; without
      one, only the collecting list has entries. */
  ghost predicate Buffers(s: State, ids: seq<nat>, k: nat, stable: set<nat>) {
    && (s.q.InFlight() ==>
          && s.q.List(s.q.runningIdx) == s.h.waiting != []
          && (forall i :: i in s.h.waiting ==> CoveredBy(s.h, i, s.h.issued, s.h.snapshot))
          && (ids != [] ==> s.q.Pending() == ids))
    && (!s.q.InFlight() ==> s.q.List(!s.q.pendingIdx) == ids)
    && (forall i :: i in ids ==> CoveredBy(s.h, i, k, stable))
    && k <= s.h.completed[FlushCmd] && SinceOk(s, ids)
  }

  /** flush_pending_since is when the first request of the collecting list joined. */
  predicate SinceOk(s: State, ids: seq<nat>) {
    s.q.Pending() != [] && (ids == [] || !s.q.InFlight()) ==>
      s.q.Pending()[0] in s.h.since && s.q.pendingSince == s.h.since[s.q.Pending()[0]]
  }

  ghost predicate Inv(s: State) {
    Base(s, {}) && Buffers(s, [], 0, {})
  }

  // ------------------------------------------------------------- small lemmas

  lemma CurSeqIsAt(policy: set<FSeq>, log: seq<FSeq>)
    requires policy <= ACTIONS && log <= Steps(policy)
    ensures CurSeq(SeqFor(policy, log)) == At(policy, log)
  {
    var all, n := Steps(policy), |log|;
    assert log == all[..n];
    if n == 1 {
      assert log == [all[0]];
    } else if n == 2 {
      assert log == [all[0], all[1]];
    } else if n == 3 {
      assert log == [all[0], all[1], all[2]];
    }
  }

  /** Performing the step a request is at. */
  lemma SeqForStep(policy: set<FSeq>, log: seq<FSeq>, step: FSeq)
    requires policy <= ACTIONS && log < Steps(policy) && step == At(policy, log)
    ensures log + [step] <= Steps(policy) && step !in log && step in policy
    ensures SeqFor(policy, log + [step]) == SeqFor(policy, log) + {step}
  {
    assert log == Steps(policy)[..|log|];
    assert log + [step] == Steps(policy)[..|log| + 1];
  }

  // --------------------------------------------------- one request, step by step

  lemma OffLists(q: Queue, id: nat)
    requires ListsOk(q)
    ensures ListsOk(Unlink(q, id))
    ensures forall x :: Live(Unlink(q, id), x) <==> Live(q, x) && x != id
    ensures forall x :: x in Unlink(q, id).dataInFlight <==> x in q.dataInFlight && x != id
    ensures forall x, b :: x in Unlink(q, id).List(b) <==> x in q.List(b) && x != id
  {
    WithoutMembers(q.list0, id);
    WithoutMembers(q.list1, id);
    WithoutMembers(q.dataInFlight, id);
    hide Without, Distinct;
  }

  lemma OffBase(s: State, id: nat)
    requires Base(s, {})
    ensures Base(Off(s, id), {id})
  {
    hide Unlink, ListsOk, CmdsOk, ServedOk, RqOk, Placed, Live;
    OffLists(s.q, id);
    OffCmds(s, id);
    var s' := Off(s, id);
    forall i | i in s.q.rqs && i != id
      ensures Keyed(s') && RqOk(s', i) && Placed(s', i)
    {
      OffRq(s, id, i);
    }
    assert Keyed(s') by { OffKeyed(s, id); }
  }

  lemma OffKeyed(s: State, id: nat)
    requires Keyed(s)
    ensures Keyed(Off(s, id)) && Off(s, id).q.rqs == s.q.rqs && Off(s, id).h == s.h
  {
  }

  lemma OffRq(s: State, id: nat, i: nat)
    requires Keyed(s) && ListsOk(s.q) && i in s.q.rqs && i != id && RqOk(s, i) && Placed(s, i)
    ensures Keyed(Off(s, id)) && i in Off(s, id).q.rqs && RqOk(Off(s, id), i) && Placed(Off(s, id), i)
  {
    hide ListsOk, Effects, Running, Finished, At, Without;
    OffLists(s.q, id);
    var q := Off(s, id).q;
    assert i in q.List(false) <==> i in s.q.List(false);
    assert i in q.List(true) <==> i in s.q.List(true);
    assert Live(q, i) <==> Live(s.q, i);
  }

  lemma OffCmds(s: State, id: nat)
    requires ListsOk(s.q) && CmdsOk(s, {})
    ensures CmdsOk(Off(s, id), {id})
  {
    OffLists(s.q, id);
    hide ListsOk, Without;
    var s' := Off(s, id);
    assert forall c :: s'.q.Count(c) == s.q.Count(c);
    forall i | i != id
      ensures DataCmdOk(s', i)
    {
      assert DataCmdOk(s, i);
    }
  }

  /** `s'` may differ from `s` in the records of request `id` and its data
      command, and in what was written, made stable or served meanwhile. */
  ghost predicate Touched(s: State, s': State, id: nat) {
    && id in s'.q.rqs && Keyed(s')
    && s'.q == s.q.(rqs := s.q.rqs[id := s'.q.rqs[id]], device := s'.q.device)
    && (forall c :: c != DataCmd(id) ==> s'.q.device[c] == s.q.device[c] && s'.h.completed[c] == s.h.completed[c])
    && s'.h.policy == s.h.policy[id := s'.h.policy[id]]
    && s'.h.log == s.h.log[id := s'.h.log[id]]
    && s'.h.before == s.h.before[id := s'.h.before[id]]
    && s'.h.joined == s.h.joined && s'.h.since == s.h.since && s'.h.issued == s.h.issued
    && s'.h.waiting == s.h.waiting && s'.h.snapshot == s.h.snapshot
    && s.h.written <= s'.h.written && s.h.durable <= s'.h.durable
    && s.h.forced <= s'.h.forced <= s.h.forced + {id}
    && s.h.failed <= s'.h.failed <= s.h.failed + {id}
  }

  lemma TouchedOther(s: State, s': State, id: nat, i: nat)
    requires Keyed(s) && Touched(s, s', id) && i in s.q.rqs && i != id && RqOk(s, i) && Placed(s, i)
    ensures i in s'.q.rqs && RqOk(s', i) && Placed(s', i)
  {
    hide Running, Finished, At;
  }

  lemma SameLists(q: Queue, q': Queue)
    requires q'.list0 == q.list0 && q'.list1 == q.list1 && q'.dataInFlight == q.dataInFlight && ListsOk(q)
    ensures ListsOk(q') && forall x :: Live(q', x) <==> Live(q, x)
  {
  }

  lemma TouchCmds(s: State, s': State, id: nat)
    requires CmdsOk(s, {id}) && Touched(s, s', id)
    ensures CmdsOk(s', {id})
  {
    assert forall c :: c != DataCmd(id) ==> s'.q.Count(c) == s.q.Count(c);
    forall i | i != id
      ensures DataCmdOk(s', i)
    {
      assert DataCmdOk(s, i);
    }
  }

  lemma TouchBase(s: State, s': State, id: nat)
    requires Base(s, {id}) && Touched(s, s', id) && ServedOk(s'.h)
    ensures Base(s', {id})
  {
    SameLists(s.q, s'.q);
    TouchCmds(s, s', id);
    hide RqOk, Placed, ListsOk, CmdsOk, Live, ServedOk;
    forall i | i in s'.q.rqs && i != id
      ensures RqOk(s', i) && Placed(s', i)
    {
      TouchedOther(s, s', id, i);
    }
  }

  /** No command of `id` is left, and its completions so far are for data. */
  predicate Idle(s: State, id: nat)
    requires id in s.q.rqs
  {
    && s.q.Count(DataCmd(id)) == 0 && s.q.Count(PlainCmd(id)) == 0
    && s.q.rqs[id].completions == s.h.completed[DataCmd(id)]
  }

  /** Request `id` is off the lists and about to start `step`. */
  ghost predicate Ready(s: State, id: nat, step: FSeq) {
    && Keyed(s) && id in s.q.rqs && !Live(s.q, id) && Idle(s, id)
    && var (r, policy, log) := (s.q.rqs[id], s.h.policy[id], s.h.log[id]);
       && PolicyOk(policy) && Effects(s.h, id, log, s.h.before[id]) && r.bioEnds == 0 && log <= Steps(policy)
       && (step == Done && id !in s.h.failed ==>
             log == Steps(policy) && r.completions == if Data in policy then 1 else 0)
       && (step != Done ==> id !in s.h.failed && step == At(policy, log) && Running(r, policy, log))
  }

  lemma PlaceCounts(s: State, id: nat, step: FSeq, first: bool, now: nat, c: Cmd)
    requires id in s.q.rqs
    ensures var s' := Place(s, id, step, first, now);
            s'.q.Count(c) == s.q.Count(c) + if step == Data && c == DataCmd(id) then 1 else 0
  {
    hide Complete, Restore;
  }

  lemma PlaceCmds(s: State, id: nat, step: FSeq, first: bool, now: nat)
    requires CmdsOk(s, {id}) && Ready(s, id, step)
    ensures CmdsOk(Place(s, id, step, first, now), {})
  {
    hide Running, PolicyOk, Effects, At, Steps, Complete, Restore, Queue.Count;
    var s' := Place(s, id, step, first, now);
    PlaceCounts(s, id, step, first, now, FlushCmd);
    forall i
      ensures DataCmdOk(s', i)
    {
      PlaceCounts(s, id, step, first, now, DataCmd(i));
      PlaceCounts(s, id, step, first, now, PlainCmd(i));
      assert i != id ==> DataCmdOk(s, i);
    }
  }

  lemma PlaceDone(s: State, id: nat, first: bool, now: nat)
    requires Base(s, {id}) && Ready(s, id, Done)
    ensures Base(Place(s, id, Done, first, now), {})
  {
    hide CmdsOk, ListsOk, ServedOk, RqOk, Placed, Ready, Live, Complete, Restore;
    ReadyOff(s, id, Done);
    var s' := Place(s, id, Done, first, now);
    PlaceCmds(s, id, Done, first, now);
    SameLists(s.q, s'.q);
    forall i | i in s'.q.rqs
      ensures RqOk(s', i) && Placed(s', i)
    {
      DoneRq(s, s', id, i);
    }
  }

  lemma ReadyOff(s: State, id: nat, step: FSeq)
    requires Ready(s, id, step)
    ensures id in s.q.rqs && !Live(s.q, id) && Keyed(s)
  {
  }

  lemma DoneRq(s: State, s': State, id: nat, i: nat)
    requires Ready(s, id, Done) && s' == s.(q := s.q.(rqs := s.q.rqs[id := Complete(Restore(s.q.rqs[id]))]))
    requires i in s.q.rqs && (i != id ==> RqOk(s, i) && Placed(s, i))
    ensures Keyed(s') && RqOk(s', i) && Placed(s', i)
  {
    hide Steps, At, Effects, PolicyOk, Queue.Count;
    StepsData(s.h.policy[id]);
  }

  lemma StepsData(policy: set<FSeq>)
    ensures Data in Steps(policy) <==> Data in policy
  {
  }

  lemma AppendLists(q: Queue, q': Queue, id: nat)
    requires ListsOk(q) && !Live(q, id)
    requires || (q'.list0 == q.list0 + [id] && q'.list1 == q.list1 && q'.dataInFlight == q.dataInFlight)
             || (q'.list1 == q.list1 + [id] && q'.list0 == q.list0 && q'.dataInFlight == q.dataInFlight)
             || (q'.dataInFlight == q.dataInFlight + [id] && q'.list0 == q.list0 && q'.list1 == q.list1)
    ensures ListsOk(q') && forall x :: Live(q', x) <==> Live(q, x) || x == id
  {
  }

  lemma PlaceData(s: State, id: nat, first: bool, now: nat)
    requires Base(s, {id}) && Ready(s, id, Data)
    ensures Base(Place(s, id, Data, first, now), {})
  {
    hide ListsOk, CmdsOk, ServedOk, RqOk, Placed, Ready, Live;
    ReadyOff(s, id, Data);
    var s' := Place(s, id, Data, first, now);
    AppendLists(s.q, s'.q, id);
    PlaceCmds(s, id, Data, first, now);
    forall i | i in s'.q.rqs
      ensures RqOk(s', i) && Placed(s', i)
    {
      DataStartedRq(s, s', id, i);
    }
  }

  lemma DataStartedRq(s: State, s': State, id: nat, i: nat)
    requires Ready(s, id, Data) && s'.h == s.h && s'.q.rqs == s.q.rqs
    requires s'.q.list0 == s.q.list0 && s'.q.list1 == s.q.list1 && s'.q.dataInFlight == s.q.dataInFlight + [id]
    requires i in s.q.rqs && (i != id ==> RqOk(s, i) && Placed(s, i))
    ensures Keyed(s') && RqOk(s', i) && Placed(s', i)
  {
    hide Running, Finished, At, Steps, Effects, PolicyOk, Queue.Count;
    assert i in s'.q.dataInFlight <==> i in s.q.dataInFlight || i == id;
  }

  lemma AppendFlush(q: Queue, idx: bool, id: nat)
    requires ListsOk(q) && !Live(q, id)
    ensures var q' := Append(q, idx, id);
            && ListsOk(q') && q'.rqs == q.rqs && q'.dataInFlight == q.dataInFlight
            && (forall x :: OnFlush(q', x) <==> OnFlush(q, x) || x == id)
  {
    AppendLists(q, Append(q, idx, id), id);
  }

  lemma JoinedRq(s: State, s': State, id: nat, step: FSeq, i: nat)
    requires Ready(s, id, step) && (step == Preflush || step == Postflush)
    requires s'.q.rqs == s.q.rqs && s'.q.dataInFlight == s.q.dataInFlight
    requires forall x :: OnFlush(s'.q, x) <==> OnFlush(s.q, x) || x == id
    requires s'.h == s.h.(joined := s.h.joined[id := s.h.issued], since := s'.h.since)
    requires i in s.q.rqs && (i != id ==> RqOk(s, i) && Placed(s, i))
    ensures Keyed(s') && RqOk(s', i) && Placed(s', i)
  {
    hide Running, Finished, At, Steps;
    assert OnFlush(s'.q, i) <==> OnFlush(s.q, i) || i == id;
  }

  /** The lists after a request has joined. */
  lemma JoinLists(s: State, id: nat, first: bool, now: nat)
    requires Base(s, {id}) && id in s.q.rqs
    ensures var s' := Join(s, id, first, now);
            && Keyed(s') && ListsOk(s'.q) && ServedOk(s'.h)
            && s'.q.rqs == s.q.rqs && s'.q.dataInFlight == s.q.dataInFlight
            && s'.h == s.h.(joined := s.h.joined[id := s.h.issued], since := s.h.since[id := now])
            && (forall x :: OnFlush(s'.q, x) <==> OnFlush(s.q, x) || x == id)
            && (forall x :: Live(s'.q, x) ==> x in s.q.rqs)
  {
    var q := s.q.(pendingSince := if first then now else s.q.pendingSince);
    SameLists(s.q, q);
    AppendFlush(q, q.pendingIdx, id);
    hide Append, ListsOk, CmdsOk, RqOk, Placed;
  }

  lemma JoinBase(s: State, id: nat, step: FSeq, first: bool, now: nat)
    requires Base(s, {id}) && Ready(s, id, step) && (step == Preflush || step == Postflush)
    ensures Base(Join(s, id, first, now), {})
  {
    hide Join, ListsOk, CmdsOk, RqOk, Placed, Ready, ServedOk, Live, OnFlush;
    ReadyOff(s, id, step);
    JoinLists(s, id, first, now);
    PlaceCmds(s, id, step, first, now);
    var s' := Join(s, id, first, now);
    forall i | i in s'.q.rqs
      ensures RqOk(s', i) && Placed(s', i)
    {
      JoinedRq(s, s', id, step, i);
    }
  }

  lemma PlaceBase(s: State, id: nat, step: FSeq, first: bool, now: nat)
    requires Base(s, {id}) && Ready(s, id, step)
    ensures Base(Place(s, id, step, first, now), {})
  {
    hide Base, Ready, Join;
    match step
    case Data => PlaceData(s, id, first, now);
    case Done => PlaceDone(s, id, first, now);
    case _ => JoinBase(s, id, step, first, now);
  }

  /** `s'` differs from `s` at most in the double buffer, the commands, and what
      was written or made stable meanwhile. */
  ghost predicate Aside(s: State, s': State) {
    && s'.q.rqs == s.q.rqs && s'.q.list0 == s.q.list0 && s'.q.list1 == s.q.list1
    && s'.q.dataInFlight == s.q.dataInFlight
    && s'.h.policy == s.h.policy && s'.h.log == s.h.log && s'.h.before == s.h.before && s'.h.joined == s.h.joined
    && s.h.written <= s'.h.written && s.h.durable <= s'.h.durable
    && (forall id :: id in s.q.rqs ==> (id in s'.h.failed <==> id in s.h.failed))
    && (forall id :: id in s.q.rqs ==> (id in s'.h.forced <==> id in s.h.forced))
    && (forall id :: s'.h.completed[DataCmd(id)] == s.h.completed[DataCmd(id)])
  }

  lemma AsideRq(s: State, s': State, i: nat)
    requires Keyed(s) && Aside(s, s') && i in s.q.rqs && RqOk(s, i) && Placed(s, i)
    ensures Keyed(s') && RqOk(s', i) && Placed(s', i)
  {
    hide Running, Finished, At;
    assert Live(s'.q, i) <==> Live(s.q, i);
  }

  lemma AsideBase(s: State, s': State)
    requires Base(s, {}) && Aside(s, s') && CmdsOk(s', {}) && ServedOk(s'.h)
    ensures Base(s', {})
  {
    hide RqOk, Placed, ListsOk, CmdsOk, ServedOk, Live;
    SameLists(s.q, s'.q);
    forall i | i in s'.q.rqs
      ensures RqOk(s', i) && Placed(s', i)
    {
      assert RqOk(s, i) && Placed(s, i);
      AsideRq(s, s', i);
    }
  }

  lemma BaseParts(s: State, out: set<nat>)
    requires Base(s, out)
    ensures Keyed(s) && ListsOk(s.q) && CmdsOk(s, out) && ServedOk(s.h)
  {
  }

  lemma BaseRq(s: State, id: nat)
    requires Base(s, {}) && (id in s.q.rqs || Live(s.q, id))
    ensures Keyed(s) && id in s.q.rqs && RqOk(s, id) && Placed(s, id)
  {
  }

  lemma KickCmds(s: State, hz: nat, now: nat)
    requires CmdsOk(s, {})
    ensures CmdsOk(Kick(s, hz, now), {})
  {
    var s' := Kick(s, hz, now);
    assert forall c :: s'.q.Count(c) == s.q.Count(c) + if s'.h.issued != s.h.issued && c == FlushCmd then 1 else 0;
    forall i
      ensures DataCmdOk(s', i)
    {
      assert DataCmdOk(s, i);
    }
  }

  lemma KickBase(s: State, hz: nat, now: nat)
    requires Base(s, {})
    ensures Base(Kick(s, hz, now), {})
  {
    hide Base, CmdsOk;
    BaseParts(s, {});
    KickCmds(s, hz, now);
    AsideBase(s, Kick(s, hz, now));
  }

  // -------------------------------------------------------- the double buffer

  lemma OffListsWalk(q: Queue, ids: seq<nat>, idx: bool)
    requires ListsOk(q) && ids != [] && q.List(idx) == ids
    ensures Unlink(q, ids[0]).List(idx) == ids[1..] && Unlink(q, ids[0]).List(!idx) == q.List(!idx)
    ensures Unlink(q, ids[0]).pendingIdx == q.pendingIdx && Unlink(q, ids[0]).runningIdx == q.runningIdx
    ensures Unlink(q, ids[0]).pendingSince == q.pendingSince
  {
    WithoutMembers(q.List(!idx), ids[0]);
  }

  lemma OffBuffersWalk(s: State, ids: seq<nat>, k: nat, stable: set<nat>)
    requires Base(s, {}) && Buffers(s, ids, k, stable) && ids != []
    ensures Buffers(Off(s, ids[0]), ids[1..], k, stable)
    ensures s.q.InFlight() ==> ids[0] !in s.h.waiting
    ensures ids[0] !in ids[1..]
  {
    hide Base, Unlink, CoveredBy;
    BaseParts(s, {});
    var idx := if s.q.InFlight() then s.q.pendingIdx else !s.q.pendingIdx;
    OffListsWalk(s.q, ids, idx);
    assert ids[0] in s.q.List(idx) && ids[0] !in s.q.List(!idx);
  }

  lemma OffBuffersOther(s: State, id: nat)
    requires Base(s, {}) && Buffers(s, [], 0, {}) && !OnFlush(s.q, id)
    ensures Buffers(Off(s, id), [], 0, {}) && Off(s, id).q.Pending() == s.q.Pending()
    ensures s.q.InFlight() ==> id !in s.h.waiting
  {
    WithoutMembers(s.q.list0, id);
    WithoutMembers(s.q.list1, id);
    hide Without, RqOk, Placed;
  }

  lemma TouchBuffers(s: State, s': State, id: nat, ids: seq<nat>, k: nat, stable: set<nat>)
    requires Buffers(s, ids, k, stable) && Touched(s, s', id) && id !in ids && (s.q.InFlight() ==> id !in s.h.waiting)
    ensures Buffers(s', ids, k, stable)
  {
  }

  lemma PlaceBuffers(s: State, id: nat, step: FSeq, first: bool, now: nat, ids: seq<nat>, k: nat, stable: set<nat>)
    requires id in s.q.rqs && Buffers(s, ids, k, stable) && id !in ids && (s.q.InFlight() ==> id !in s.h.waiting)
    requires step == Preflush || step == Postflush ==>
               ids == [] && first == (s.q.Pending() == []) && id !in s.q.Pending()
    ensures Buffers(Place(s, id, step, first, now), ids, k, stable)
  {
  }

  lemma WaitingCovered(s: State, i: nat)
    requires Base(s, {}) && OnFlush(s.q, i)
    ensures CoveredBy(s.h, i, s.h.issued + 1, s.h.written)
  {
    assert Live(s.q, i);
    assert RqOk(s, i) && Placed(s, i);
  }

  lemma KickBuffers(s: State, hz: nat, now: nat, ids: seq<nat>, k: nat, stable: set<nat>)
    requires Base(s, {}) && Buffers(s, ids, k, stable)
    ensures Buffers(Kick(s, hz, now), ids, k, stable)
  {
    var s' := Kick(s, hz, now);
    if s'.h.issued != s.h.issued {
      forall i | i in s.q.Pending()
        ensures CoveredBy(s'.h, i, s'.h.issued, s'.h.snapshot)
      {
        WaitingCovered(s, i);
      }
    }
  }

  /** No request waits unless a command is queued or with the driver whose
      completion will look after it. */
  ghost predicate Awake(q: Queue) {
    q.Pending() == [] || q.Count(FlushCmd) > 0 || exists id :: q.Count(DataCmd(id)) > 0
  }

  lemma KickAwake(s: State, hz: nat, now: nat)
    requires CmdsOk(s, {})
    ensures Awake(Kick(s, hz, now).q)
  {
    KickCmds(s, hz, now);
    var q := Kick(s, hz, now).q;
    if q.dataInFlight != [] {
      assert DataCmdOk(Kick(s, hz, now), q.dataInFlight[0]);
    }
  }

  /** The rest of blk_flush_complete_seq, for a request that is off the lists. */
  lemma NextOk(s: State, id: nat, step: FSeq, first: bool, hz: nat, now: nat, ids: seq<nat>, k: nat, stable: set<nat>)
    requires Base(s, {id}) && Ready(s, id, step) && Buffers(s, ids, k, stable)
    requires id !in ids && (s.q.InFlight() ==> id !in s.h.waiting)
    requires step == Preflush || step == Postflush ==> ids == [] && first == (s.q.Pending() == [])
    ensures var s' := Kick(Place(s, id, step, first, now), hz, now);
            Base(s', {}) && Buffers(s', ids, k, stable) && Awake(s'.q)
  {
    PlaceBase(s, id, step, first, now);
    ReadyOff(s, id, step);
    PlaceBuffers(s, id, step, first, now, ids, k, stable);
    BaseParts(Place(s, id, step, first, now), {});
    hide Base, Buffers, Ready, Place;
    KickBase(Place(s, id, step, first, now), hz, now);
    KickBuffers(Place(s, id, step, first, now), hz, now, ids, k, stable);
    KickAwake(Place(s, id, step, first, now), hz, now);
  }

  // --------------------------------------------------------------- completions

  /** After the step a request is at: flush steps are never adjacent, because
      POSTFLUSH comes with data. */
  lemma NextStep(policy: set<FSeq>, log: seq<FSeq>, step: FSeq)
    requires PolicyOk(policy) && log < Steps(policy) && step == At(policy, log)
    ensures log + [step] <= Steps(policy)
    ensures At(policy, log + [step]) == Done ==> log + [step] == Steps(policy)
    ensures step == Preflush || step == Postflush ==>
              var next := At(policy, log + [step]); next == Data || next == Done
    ensures step == Postflush ==> Data in log
    ensures Data in log ==> step != Data
    ensures Done !in log && step != Done
  {
    var all := Steps(policy);
    assert log == all[..|log|];
    if |log| == 1 {
      assert log == [all[0]];
    } else if |log| == 2 {
      assert log == [all[0], all[1]];
    }
  }

  /** A request on a list that performs the step it is at is ready for the next. */
  lemma PerformedReady(s: State, s': State, id: nat, step: FSeq)
    requires Base(s, {}) && Live(s.q, id) && step == At(s.h.policy[id], s.h.log[id])
    requires Keyed(s') && id in s'.q.rqs && !Live(s'.q, id) && Idle(s', id)
    requires s'.h.policy[id] == s.h.policy[id] && s'.h.before[id] == s.h.before[id]
    requires s'.h.log[id] == s.h.log[id] + [step] && id !in s'.h.failed
    requires Effects(s'.h, id, s'.h.log[id], s'.h.before[id])
    requires var r := s.q.rqs[id];
             s'.q.rqs[id] == (if step == Data then Complete(r) else r).(seq_ := r.seq_ + {step})
    ensures CurSeq(s'.q.rqs[id].seq_) == At(s.h.policy[id], s.h.log[id] + [step])
    ensures Ready(s', id, At(s.h.policy[id], s.h.log[id] + [step]))
  {
    hide Base, SeqFor, Effects, Idle;
    BaseRq(s, id);
    var policy, log := s.h.policy[id], s.h.log[id];
    SeqForStep(policy, log, step);
    CurSeqIsAt(policy, log + [step]);
    NextStep(policy, log, step);
  }

  /** A failed request is ready to be ended. */
  lemma FailedReady(s: State, s': State, id: nat)
    requires Base(s, {}) && Live(s.q, id)
    requires Keyed(s') && id in s'.q.rqs && !Live(s'.q, id) && Idle(s', id) && id in s'.h.failed
    requires s'.h.policy[id] == s.h.policy[id] && s'.h.before[id] == s.h.before[id] && s'.h.log[id] == s.h.log[id]
    requires s.h.written <= s'.h.written && s.h.durable <= s'.h.durable && s'.h.forced == s.h.forced
    requires s'.q.rqs[id].bioEnds == s.q.rqs[id].bioEnds
    ensures Ready(s', id, Done)
  {
    assert RqOk(s, id);
    hide Base, SeqFor, ListsOk;
  }

  /** The state in which the walk leaves a request between unlinking it and
      starting its next step. */
  function BetweenFlush(s: State, id: nat, k: nat, error: bool): State
    requires id in s.q.rqs
  {
    var step := CurSeq(s.q.rqs[id].seq_);
    Off(Marked(State(s.q, FlushLogged(s.h, id, step, k, error)), id, {step}), id)
  }

  lemma SelfUpdate<V>(m: map<nat, V>, id: nat)
    requires id in m
    ensures m[id := m[id]] == m
  {
  }

  lemma LoggedTouches(h: History, id: nat, step: FSeq, k: nat, error: bool)
    requires id in h.policy && id in h.log && id in h.before
    ensures var h' := FlushLogged(h, id, step, k, error);
            && id in h'.policy && id in h'.log && id in h'.before
            && h'.policy == h.policy[id := h'.policy[id]] && h'.policy.Keys == h.policy.Keys
            && h'.log == h.log[id := h'.log[id]] && h'.log.Keys == h.log.Keys
            && h'.before == h.before[id := h'.before[id]] && h'.before.Keys == h.before.Keys
            && h'.joined == h.joined && h'.since == h.since && h'.issued == h.issued && h'.waiting == h.waiting
            && h'.snapshot == h.snapshot
            && h'.written == h.written && h'.durable == h.durable && h'.forced == h.forced
            && h.failed <= h'.failed <= h.failed + {id} && h'.completed == h.completed
  {
    SelfUpdate(h.policy, id);
    SelfUpdate(h.before, id);
    SelfUpdate(h.log, id);
  }

  lemma BetweenTouched(s: State, id: nat, k: nat, error: bool)
    requires Base(s, {}) && id in s.q.rqs
    ensures Touched(Off(s, id), BetweenFlush(s, id, k, error), id)
  {
    hide Base, Without, FlushLogged, CurSeq;
    BaseKeyed(s, id);
    LoggedTouches(s.h, id, CurSeq(s.q.rqs[id].seq_), k, error);
  }

  lemma BaseKeyed(s: State, id: nat)
    requires Base(s, {}) && id in s.q.rqs
    ensures Keyed(s) && id in s.h.policy && id in s.h.log && id in s.h.before
  {
    assert id in s.h.policy.Keys && id in s.h.log.Keys && id in s.h.before.Keys;
  }

  /** What that state records of the request itself. */
  lemma BetweenRecord(s: State, id: nat, k: nat, error: bool)
    requires Keyed(s) && id in s.q.rqs && ListsOk(s.q)
    ensures var s', step := BetweenFlush(s, id, k, error), CurSeq(s.q.rqs[id].seq_);
            && Keyed(s') && id in s'.q.rqs && !Live(s'.q, id)
            && s'.q.rqs[id] == s.q.rqs[id].(seq_ := s.q.rqs[id].seq_ + {step})
            && s'.h.policy[id] == s.h.policy[id] && s'.h.before[id] == s.h.before[id]
            && s'.h.written == s.h.written && s'.h.durable == s.h.durable && s'.h.forced == s.h.forced
            && s'.h.log[id] == (if error then s.h.log[id] else s.h.log[id] + [step])
            && s'.h.failed == (if error then s.h.failed + {id} else s.h.failed)
            && s'.h.completed == s.h.completed && s'.q.head == s.q.head && s'.q.device == s.q.device
  {
    OffLists(s.q, id);
    assert !Live(Unlink(s.q, id), id);
    hide Unlink, CurSeq, ListsOk;
  }

  lemma BetweenServed(s: State, id: nat, k: nat, error: bool)
    requires Base(s, {}) && id in s.q.rqs && id in s.h.joined && s.h.joined[id] < k <= s.h.completed[FlushCmd]
    ensures ServedOk(BetweenFlush(s, id, k, error).h)
  {
    hide Base, Unlink, CurSeq;
    BaseParts(s, {});
  }

  lemma BetweenReady(s: State, id: nat, k: nat, error: bool, stable: set<nat>)
    requires Base(s, {}) && Live(s.q, id) && OnFlush(s.q, id) && id in s.q.rqs
    requires CoveredBy(s.h, id, k, stable) && (!error ==> stable <= s.h.durable)
    ensures var s' := BetweenFlush(s, id, k, error);
            var step := if error then Done else CurSeq(s'.q.rqs[id].seq_);
            Ready(s', id, step) && (step == Data || step == Done)
  {
    var s' := BetweenFlush(s, id, k, error);
    BetweenRecord(s, id, k, error);
    WaitingIdle(s, s', id);
    if error {
      hide BetweenFlush, Base, Ready, RqOk, Placed;
      FailedReady(s, s', id);
    } else {
      BetweenPerformed(s, s', id, k, stable);
    }
  }

  /** A request that waits for a flush has no command of its own. */
  lemma WaitingIdle(s: State, s': State, id: nat)
    requires Base(s, {}) && OnFlush(s.q, id) && id in s.q.rqs && id in s'.q.rqs
    requires s'.h.completed == s.h.completed && s'.q.head == s.q.head && s'.q.device == s.q.device
    requires s'.q.rqs[id].completions == s.q.rqs[id].completions
    ensures Idle(s', id)
  {
    assert RqOk(s, id) && DataCmdOk(s, id);
    hide Running, Finished, Effects, Placed;
  }

  lemma BetweenPerformed(s: State, s': State, id: nat, k: nat, stable: set<nat>)
    requires Base(s, {}) && Live(s.q, id) && OnFlush(s.q, id) && id in s.q.rqs
    requires CoveredBy(s.h, id, k, stable) && stable <= s.h.durable
    requires Keyed(s') && id in s'.q.rqs && !Live(s'.q, id) && Idle(s', id)
    requires var step := CurSeq(s.q.rqs[id].seq_);
             && s'.q.rqs[id] == s.q.rqs[id].(seq_ := s.q.rqs[id].seq_ + {step})
             && s'.h.log[id] == s.h.log[id] + [step]
    requires s'.h.policy[id] == s.h.policy[id] && s'.h.before[id] == s.h.before[id] && s'.h.failed == s.h.failed
    requires s'.h.written == s.h.written && s'.h.durable == s.h.durable && s'.h.forced == s.h.forced
    ensures var step := CurSeq(s'.q.rqs[id].seq_); Ready(s', id, step) && (step == Data || step == Done)
  {
    hide Base, Steps, SeqFor, At, CurSeq, Ready, Idle;
    BaseRq(s, id);
    var policy, log := s.h.policy[id], s.h.log[id];
    CurSeqIsAt(policy, log);
    NextStep(policy, log, At(policy, log));
    PerformedReady(s, s', id, At(policy, log));
  }

  /** One turn of the walk keeps the invariants, for one request less. */
  lemma PushedOk(s: State, ids: seq<nat>, k: nat, stable: set<nat>, error: bool, hz: nat, now: nat)
    requires Base(s, {}) && Buffers(s, ids, k, stable) && ids != [] && (!error ==> stable <= s.h.durable)
    ensures ids[0] in s.q.rqs
    ensures var s' := Pushed(s, ids[0], k, error, hz, now);
            Base(s', {}) && Buffers(s', ids[1..], k, stable) && Awake(s'.q) && s'.h.durable == s.h.durable
  {
    hide Base, Buffers, Ready, Touched, ServedOk, BetweenFlush, Off, Kick, Place;
    var id := ids[0];
    WalkHead(s, ids, k, stable);
    OffBase(s, id);
    OffBuffersWalk(s, ids, k, stable);
    BetweenTouched(s, id, k, error);
    BetweenServed(s, id, k, error);
    BetweenReady(s, id, k, error, stable);
    var x := BetweenFlush(s, id, k, error);
    TouchBase(Off(s, id), x, id);
    OffKeeps(s, x, id);
    TouchBuffers(Off(s, id), x, id, ids[1..], k, stable);
    var step := if error then Done else CurSeq(x.q.rqs[id].seq_);
    NextOk(x, id, step, s.q.Pending() == [], hz, now, ids[1..], k, stable);
    PushedIs(s, id, k, error, hz, now);
  }

  lemma OffKeeps(s: State, x: State, id: nat)
    requires Touched(Off(s, id), x, id)
    ensures Off(s, id).q.InFlight() == s.q.InFlight() && Off(s, id).h.waiting == s.h.waiting
    ensures x.q.InFlight() == s.q.InFlight() && x.h.waiting == s.h.waiting && id in x.q.rqs
    ensures x.q.Pending() == Off(s, id).q.Pending()
  {
  }

  lemma PushedIs(s: State, id: nat, k: nat, error: bool, hz: nat, now: nat)
    requires id in s.q.rqs && id in BetweenFlush(s, id, k, error).q.rqs
    ensures var x := BetweenFlush(s, id, k, error);
            var s' := Pushed(s, id, k, error, hz, now);
            && s' == Kick(Place(x, id, if error then Done else CurSeq(x.q.rqs[id].seq_), s.q.Pending() == [], now),
                          hz, now)
            && s'.h.durable == s.h.durable
  {
    hide Without, Append;
  }

  lemma WalkHead(s: State, ids: seq<nat>, k: nat, stable: set<nat>)
    requires Base(s, {}) && Buffers(s, ids, k, stable) && ids != []
    ensures var id := ids[0];
            && id in s.q.rqs && Live(s.q, id) && OnFlush(s.q, id) && CoveredBy(s.h, id, k, stable)
            && k <= s.h.completed[FlushCmd]
  {
  }

  /** The whole walk, and with it flush_end_io. */
  lemma {:induction false} WalkOk(s: State, ids: seq<nat>, k: nat, stable: set<nat>, error: bool, hz: nat, now: nat)
    requires Base(s, {}) && Buffers(s, ids, k, stable) && (!error ==> stable <= s.h.durable)
    requires ids == [] ==> Awake(s.q)
    ensures forall id :: id in ids ==> id in s.q.rqs
    ensures var s' := Walk(s, ids, k, error, hz, now); Inv(s') && Awake(s'.q)
    decreases |ids|
  {
    hide Base, Pushed;
    if ids == [] {
      NoneLeft(s, k, stable);
    } else {
      PushedOk(s, ids, k, stable, error, hz, now);
      hide Buffers;
      var s1 := Pushed(s, ids[0], k, error, hz, now);
      WalkOk(s1, ids[1..], k, stable, error, hz, now);
      assert forall id :: id in ids ==> id == ids[0] || id in ids[1..];
    }
  }

  lemma NoneLeft(s: State, k: nat, stable: set<nat>)
    requires Base(s, {}) && Buffers(s, [], k, stable)
    ensures Inv(s)
  {
    hide Base;
  }

  lemma FlipCmds(s: State, error: bool)
    requires CmdsOk(s, {}) && FlushCmd in s.q.device
    ensures s.q.InFlight() && !Flipped(s, error).q.InFlight() && CmdsOk(Flipped(s, error), {})
    ensures s.h.issued == Flipped(s, error).h.completed[FlushCmd]
  {
    var s' := Flipped(s, error);
    assert forall c :: s'.q.Count(c) == s.q.Count(c) - if c == FlushCmd then 1 else 0;
    forall i
      ensures DataCmdOk(s', i)
    {
      assert DataCmdOk(s, i);
    }
  }

  /** The walk only reaches requests that waited, and logs their step once. */
  lemma FlipOk(s: State, error: bool)
    requires Inv(s) && FlushCmd in s.q.device
    ensures s.q.InFlight() && s.q.List(s.q.runningIdx) == s.h.waiting != []
    ensures var s' := Flipped(s, error); Base(s', {}) && Buffers(s', s.h.waiting, s.h.issued, s.h.snapshot)
  {
    hide Base, CmdsOk, CoveredBy, ListsOk, Keyed;
    BaseParts(s, {});
    FlipCmds(s, error);
    AsideBase(s, Flipped(s, error));
    FlipCovered(s, error);
  }

  lemma FlipCovered(s: State, error: bool)
    ensures forall i, k, stable :: CoveredBy(s.h, i, k, stable) ==> CoveredBy(Flipped(s, error).h, i, k, stable)
  {
  }

  lemma FlushEndIoOk(s: State, error: bool, hz: nat, now: nat)
    requires Inv(s) && FlushCmd in s.q.device
    ensures s.q.InFlight() && forall id :: id in s.q.List(s.q.runningIdx) ==> id in s.q.rqs
    ensures var s' := FlushEndIo(s, error, hz, now); Inv(s') && Awake(s'.q)
  {
    FlipOk(s, error);
    hide Base, Buffers, Walk;
    WalkOk(Flipped(s, error), s.h.waiting, s.h.issued, s.h.snapshot, error, hz, now);
  }

  /** What one turn of the walk does to the records of request `i`. */
  lemma PushedLog(s: State, id: nat, k: nat, error: bool, hz: nat, now: nat, i: nat)
    requires Base(s, {}) && Live(s.q, id) && id in s.q.rqs && i in s.h.log && i in s.h.policy
    ensures var h := Pushed(s, id, k, error, hz, now).h;
            && i in h.log && h.policy == s.h.policy && h.durable == s.h.durable
            && h.log[i] == if i == id && !error then s.h.log[i] + [At(s.h.policy[i], s.h.log[i])] else s.h.log[i]
  {
    AtOf(s, id);
    hide Base, CurSeq, At, CompleteSeq;
  }

  lemma AtOf(s: State, id: nat)
    requires Base(s, {}) && Live(s.q, id) && id in s.q.rqs
    ensures id in s.h.policy && id in s.h.log && CurSeq(s.q.rqs[id].seq_) == At(s.h.policy[id], s.h.log[id])
  {
    BaseKeyed(s, id);
    assert RqOk(s, id);
    CurSeqIsAt(s.h.policy[id], s.h.log[id]);
    hide Base, CurSeq, At, SeqFor, Placed;
  }

  /** The walk advances exactly the requests it is given, by one step each. */
  lemma {:induction false} WalkLogs(s: State, ids: seq<nat>, k: nat, stable: set<nat>, error: bool, hz: nat, now: nat,
                                    i: nat)
    requires Base(s, {}) && Buffers(s, ids, k, stable) && (!error ==> stable <= s.h.durable)
    requires i in s.h.log && i in s.h.policy && forall id :: id in ids ==> id in s.q.rqs
    ensures var h := Walk(s, ids, k, error, hz, now).h;
            && i in h.log
            && h.log[i] == if i in ids && !error then s.h.log[i] + [At(s.h.policy[i], s.h.log[i])] else s.h.log[i]
    decreases |ids|
  {
    hide Base, Pushed, At, Buffers;
    if ids != [] {
      WalkHead(s, ids, k, stable);
      PushedLog(s, ids[0], k, error, hz, now, i);
      PushedOk(s, ids, k, stable, error, hz, now);
      OffBuffersWalk(s, ids, k, stable);
      assert i in ids <==> i == ids[0] || i in ids[1..];
      WalkLogs(Pushed(s, ids[0], k, error, hz, now), ids[1..], k, stable, error, hz, now, i);
    }
  }

  /** A completed flush advances exactly the requests that were waiting when it
      was issued, each by the step it was at; a failed one advances none. */
  lemma FlushAdvancesWaiting(s: State, error: bool, hz: nat, now: nat, i: nat)
    requires Inv(s) && FlushCmd in s.q.device && i in s.q.rqs
    requires forall id :: id in s.q.List(s.q.runningIdx) ==> id in s.q.rqs
    ensures i in s.h.log && i in s.h.policy
    ensures var h := FlushEndIo(s, error, hz, now).h;
            && i in h.log
            && h.log[i] == if i in s.h.waiting && !error then s.h.log[i] + [At(s.h.policy[i], s.h.log[i])]
                           else s.h.log[i]
  {
    BaseKeyed(s, i);
    FlipOk(s, error);
    hide Base, Buffers, Walk, At;
    WalkLogs(Flipped(s, error), s.h.waiting, s.h.issued, s.h.snapshot, error, hz, now, i);
  }

  // ------------------------------------------------------- data and insertion

  function BetweenData(s: State, id: nat, error: bool): State
    requires id in s.q.rqs
  {
    var r := Released(s, DataCmd(id));
    var q := r.q.(rqs := s.q.rqs[id := Complete(s.q.rqs[id])]);
    Off(Marked(State(q, DataLogged(r.h, id, error)), id, {Data}), id)
  }

  lemma DataLoggedTouches(h: History, id: nat, error: bool)
    requires id in h.policy && id in h.log && id in h.before
    ensures var h' := DataLogged(h, id, error);
            && id in h'.policy && id in h'.log && id in h'.before
            && h'.policy == h.policy[id := h'.policy[id]] && h'.policy.Keys == h.policy.Keys
            && h'.log == h.log[id := h'.log[id]] && h'.log.Keys == h.log.Keys
            && h'.before == h.before[id := h'.before[id]] && h'.before.Keys == h.before.Keys
            && h'.joined == h.joined && h'.since == h.since && h'.issued == h.issued && h'.waiting == h.waiting
            && h'.snapshot == h.snapshot
            && h.written <= h'.written && h.durable <= h'.durable && h'.forced == h.forced
            && h.failed <= h'.failed <= h.failed + {id} && h'.served == h.served && h'.completed == h.completed
  {
    SelfUpdate(h.policy, id);
    SelfUpdate(h.before, id);
    SelfUpdate(h.log, id);
  }

  lemma DataTouched(s: State, id: nat, error: bool)
    requires Base(s, {}) && id in s.q.rqs
    ensures Touched(Off(s, id), BetweenData(s, id, error), id)
  {
    hide Base, Without, DataLogged;
    BaseKeyed(s, id);
    DataLoggedTouches(Released(s, DataCmd(id)).h, id, error);
  }

  lemma DataServed(s: State, id: nat, error: bool)
    requires Base(s, {}) && id in s.q.rqs
    ensures ServedOk(BetweenData(s, id, error).h)
  {
    hide Base, Without;
    BaseParts(s, {});
    hide CmdsOk, ListsOk;
  }

  lemma DataRecord(s: State, id: nat, error: bool)
    requires Keyed(s) && id in s.q.rqs && id in s.h.log && ListsOk(s.q)
    ensures var s' := BetweenData(s, id, error);
            && Keyed(s') && id in s'.q.rqs && !Live(s'.q, id)
            && s'.q.rqs[id] == Complete(s.q.rqs[id]).(seq_ := s.q.rqs[id].seq_ + {Data})
            && s'.h.policy[id] == s.h.policy[id] && s'.h.before[id] == s.h.before[id] && s'.h.forced == s.h.forced
            && s.h.written <= s'.h.written && s.h.durable <= s'.h.durable
            && s'.h.log[id] == (if error then s.h.log[id] else s.h.log[id] + [Data])
            && s'.h.failed == (if error then s.h.failed + {id} else s.h.failed)
            && (!error ==> id in s'.h.written && (id in s.h.forced ==> id in s'.h.durable))
            && s'.q.head == s.q.head && s'.q.device == s.q.device - multiset{DataCmd(id)}
            && s'.h.completed == s.h.completed + multiset{DataCmd(id)}
  {
    OffLists(s.q, id);
    assert !Live(Unlink(s.q, id), id);
    hide Unlink, ListsOk;
  }

  lemma DataReady(s: State, id: nat, error: bool)
    requires Base(s, {}) && Live(s.q, id) && id in s.q.dataInFlight && id in s.q.rqs && DataCmd(id) in s.q.device
    ensures var s' := BetweenData(s, id, error);
            Ready(s', id, if error then Done else CurSeq(s'.q.rqs[id].seq_))
  {
    var s' := BetweenData(s, id, error);
    BaseKeyed(s, id);
    BaseParts(s, {});
    DataRecord(s, id, error);
    DataIdle(s, s', id);
    hide BetweenData, Base, Ready;
    if error {
      FailedReady(s, s', id);
    } else {
      DataPerformed(s, s', id);
    }
  }

  /** Once its data command has been given back, a request has none. */
  lemma DataIdle(s: State, s': State, id: nat)
    requires Base(s, {}) && id in s.q.dataInFlight && id in s.q.rqs && DataCmd(id) in s.q.device && id in s'.q.rqs
    requires s'.q.head == s.q.head && s'.q.device == s.q.device - multiset{DataCmd(id)}
    requires s'.h.completed == s.h.completed + multiset{DataCmd(id)}
    requires s'.q.rqs[id].completions == s.q.rqs[id].completions + 1
    ensures Idle(s', id)
  {
    assert RqOk(s, id) && DataCmdOk(s, id);
    hide Running, Finished, Effects, Placed;
  }

  lemma DataPerformed(s: State, s': State, id: nat)
    requires Base(s, {}) && Live(s.q, id) && id in s.q.dataInFlight && id in s.q.rqs
    requires Keyed(s') && id in s'.q.rqs && !Live(s'.q, id) && Idle(s', id)
    requires s'.q.rqs[id] == Complete(s.q.rqs[id]).(seq_ := s.q.rqs[id].seq_ + {Data})
    requires s'.h.log[id] == s.h.log[id] + [Data]
    requires s'.h.policy[id] == s.h.policy[id] && s'.h.before[id] == s.h.before[id] && s'.h.failed == s.h.failed
    requires s.h.written <= s'.h.written && s.h.durable <= s'.h.durable && s'.h.forced == s.h.forced
    requires id in s'.h.written && (id in s.h.forced ==> id in s'.h.durable)
    ensures Ready(s', id, CurSeq(s'.q.rqs[id].seq_))
  {
    hide Base, Steps, SeqFor, At, CurSeq, Ready, Idle, Live;
    BaseRq(s, id);
    NextStep(s.h.policy[id], s.h.log[id], Data);
    PerformedReady(s, s', id, Data);
  }

  lemma DataIs(s: State, id: nat, error: bool, hz: nat, now: nat)
    requires id in s.q.rqs && id in BetweenData(s, id, error).q.rqs
    ensures var x := BetweenData(s, id, error);
            DataEndIo(s, id, error, hz, now) ==
            Kick(Place(x, id, if error then Done else CurSeq(x.q.rqs[id].seq_), s.q.Pending() == [], now), hz, now)
  {
    hide Without, Append;
  }

  lemma DataFacts(s: State, id: nat)
    requires Base(s, {}) && DataCmd(id) in s.q.device
    ensures id in s.q.dataInFlight && id in s.q.rqs && Live(s.q, id) && !OnFlush(s.q, id)
  {
    assert DataCmdOk(s, id) && Live(s.q, id);
  }

  lemma DataEndIoOk(s: State, id: nat, error: bool, hz: nat, now: nat)
    requires Inv(s) && DataCmd(id) in s.q.device
    ensures id in s.q.rqs && id in s.q.dataInFlight
    ensures var s' := DataEndIo(s, id, error, hz, now); Inv(s') && Awake(s'.q)
  {
    hide Base, Buffers, Ready, Touched, ServedOk, BetweenData, Off, Kick, Place, DataEndIo;
    DataFacts(s, id);
    OffBase(s, id);
    OffBuffersOther(s, id);
    DataTouched(s, id, error);
    DataServed(s, id, error);
    DataReady(s, id, error);
    var x := BetweenData(s, id, error);
    TouchBase(Off(s, id), x, id);
    OffKeeps(s, x, id);
    TouchBuffers(Off(s, id), x, id, [], 0, {});
    var step := if error then Done else CurSeq(x.q.rqs[id].seq_);
    NextOk(x, id, step, s.q.Pending() == [], hz, now, [], 0, {});
    DataIs(s, id, error, hz, now);
  }

  /** A request that enters the machinery, before its first step is chosen. */
  function Entered(s: State, id: nat, policy: set<FSeq>, forced: set<nat>): State {
    Marked(State(s.q.(rqs := s.q.rqs[id := Rq({}, true, true, 0, 0)]),
                 s.h.(forced := forced, policy := s.h.policy[id := policy], log := s.h.log[id := []],
                      before := s.h.before[id := s.h.written])),
           id, ACTIONS - policy)
  }

  lemma EnteredTouched(s: State, id: nat, policy: set<FSeq>, forced: set<nat>)
    requires Keyed(s) && s.h.forced <= forced <= s.h.forced + {id}
    ensures Touched(s, Entered(s, id, policy, forced), id)
  {
  }

  lemma EnteredOff(s: State, id: nat, policy: set<FSeq>, forced: set<nat>)
    requires ListsOk(s.q) && !Live(s.q, id)
    ensures var x := Entered(s, id, policy, forced); Off(x, id) == x
  {
    WithoutMembers(s.q.list0, id);
    WithoutMembers(s.q.list1, id);
    WithoutMembers(s.q.dataInFlight, id);
    hide Without, Distinct, Disjoint;
  }

  /** A request that is neither queued nor known from before. */
  predicate Fresh(s: State, id: nat) {
    id !in s.q.rqs && id !in s.h.failed && id !in s.h.written && s.q.Count(PlainCmd(id)) == 0
  }

  lemma EnteredBase(s: State, id: nat, policy: set<FSeq>, forced: set<nat>)
    requires Base(s, {}) && Fresh(s, id) && PolicyOk(policy)
    requires s.h.forced <= forced <= s.h.forced + {id}
    ensures var x := Entered(s, id, policy, forced);
            Base(x, {id}) && Ready(x, id, CurSeq(x.q.rqs[id].seq_)) && Off(x, id) == x
  {
    var x := Entered(s, id, policy, forced);
    BaseWeaken(s, id);
    BaseParts(s, {});
    EnteredTouched(s, id, policy, forced);
    EnteredOff(s, id, policy, forced);
    assert ServedOk(x.h) by { assert ServedOk(s.h); }
    assert Idle(x, id) by { assert DataCmdOk(s, id); }
    hide Base, Idle, ServedOk, ListsOk, Unlink;
    TouchBase(s, x, id);
    EnteredReady(s, x, id, policy);
  }

  lemma BaseWeaken(s: State, id: nat)
    requires Base(s, {}) && id !in s.q.rqs
    ensures Base(s, {id}) && !Live(s.q, id)
  {
    hide RqOk, Placed;
  }

  lemma EnteredReady(s: State, x: State, id: nat, policy: set<FSeq>)
    requires Keyed(x) && id in x.q.rqs && !Live(x.q, id) && Idle(x, id) && PolicyOk(policy) && id !in x.h.failed
    requires x.q.rqs[id] == Rq(ACTIONS - policy, true, true, 0, 0)
    requires x.h.policy[id] == policy && x.h.log[id] == [] && x.h.before[id] == x.h.written
    ensures Ready(x, id, CurSeq(x.q.rqs[id].seq_))
  {
    assert ACTIONS - policy == SeqFor(policy, []);
    CurSeqIsAt(policy, []);
  }

  lemma PolicyFits(devFua: bool, flush: bool, fua: bool, data: bool)
    requires fua ==> data
    ensures PolicyOk(Policy(true, devFua, flush, fua, data))
  {
  }

  lemma InsertIs(s: State, id: nat, cache: bool, devFua: bool, flush: bool, fua: bool, data: bool, hz: nat, now: nat)
    requires var policy := Policy(cache, devFua, flush, fua, data);
             !(Data in policy && Preflush !in policy && Postflush !in policy)
    ensures var policy := Policy(cache, devFua, flush, fua, data);
            var x := Entered(s, id, policy, s.h.forced + if fua && devFua then {id} else {});
            InsertFlush(s, id, cache, devFua, flush, fua, data, hz, now) ==
            Kick(Place(Off(x, id), id, CurSeq(x.q.rqs[id].seq_), s.q.Pending() == [], now), hz, now)
  {
    hide Unlink, Append, Kick, Place, Policy;
  }

  lemma WriteCounts(q: Queue, id: nat)
    ensures forall c :: q.(head := q.head + [PlainCmd(id)]).Count(c) == q.Count(c) + if c == PlainCmd(id) then 1 else 0
  {
  }

  lemma InsertPlainOk(s: State, id: nat, devFua: bool, fua: bool)
    requires Inv(s) && Fresh(s, id)
    ensures var h := s.h.(forced := s.h.forced + if fua && devFua then {id} else {});
            Inv(State(s.q.(head := s.q.head + [PlainCmd(id)]), h))
  {
    hide Inv, Queue.Count;
    var q := s.q.(head := s.q.head + [PlainCmd(id)]);
    WriteCounts(s.q, id);
    NoPlain(s);
    PlainOk(s, q.head, q.device, s.h.(forced := s.h.forced + if fua && devFua then {id} else {}));
  }

  lemma InsertSequencedOk(s: State, id: nat, policy: set<FSeq>, forced: set<nat>, hz: nat, now: nat)
    requires Inv(s) && Fresh(s, id) && PolicyOk(policy)
    requires s.h.forced <= forced <= s.h.forced + {id}
    ensures var x := Entered(s, id, policy, forced);
            && Off(x, id) == x && id in x.q.rqs
            && var s' := Kick(Place(x, id, CurSeq(x.q.rqs[id].seq_), s.q.Pending() == [], now), hz, now);
               Inv(s') && Awake(s'.q)
  {
    hide Base, Buffers, Ready, Touched, Kick, Place, Entered, Off;
    var x := Entered(s, id, policy, forced);
    BaseWeaken(s, id);
    BaseParts(s, {});
    EnteredTouched(s, id, policy, forced);
    NotWaiting(s, id);
    EnteredBase(s, id, policy, forced);
    TouchBuffers(s, x, id, [], 0, {});
    TouchedKeeps(s, x, id);
    NextOk(x, id, CurSeq(x.q.rqs[id].seq_), s.q.Pending() == [], hz, now, [], 0, {});
  }

  lemma InsertOk(s: State, id: nat, devFua: bool, flush: bool, fua: bool, data: bool, hz: nat, now: nat)
    requires Inv(s) && Awake(s.q) && Fresh(s, id) && (fua ==> data)
    ensures var s' := InsertFlush(s, id, true, devFua, flush, fua, data, hz, now); Inv(s') && Awake(s'.q)
  {
    hide Inv, Policy, Kick, Place, Entered, Off;
    var policy := Policy(true, devFua, flush, fua, data);
    if Data in policy && Preflush !in policy && Postflush !in policy {
      InsertPlainOk(s, id, devFua, fua);
      WriteCounts(s.q, id);
      SameAwake(s.q, s.q.(head := s.q.head + [PlainCmd(id)]));
    } else {
      PolicyFits(devFua, flush, fua, data);
      InsertIs(s, id, true, devFua, flush, fua, data, hz, now);
      InsertSequencedOk(s, id, policy, s.h.forced + if fua && devFua then {id} else {}, hz, now);
    }
  }

  lemma TouchedKeeps(s: State, x: State, id: nat)
    requires Touched(s, x, id)
    ensures x.q.InFlight() == s.q.InFlight() && x.h.waiting == s.h.waiting && id in x.q.rqs
    ensures x.q.Pending() == s.q.Pending()
  {
  }

  lemma NotWaiting(s: State, id: nat)
    requires Inv(s) && !Live(s.q, id)
    ensures s.q.InFlight() ==> id !in s.h.waiting
  {
  }

  lemma SameAwake(q: Queue, q': Queue)
    requires Awake(q) && q'.Pending() == q.Pending()
    requires q'.Count(FlushCmd) >= q.Count(FlushCmd) && forall id :: q'.Count(DataCmd(id)) >= q.Count(DataCmd(id))
    ensures Awake(q')
  {
    if exists id :: q.Count(DataCmd(id)) > 0 {
      var id :| q.Count(DataCmd(id)) > 0;
      assert q'.Count(DataCmd(id)) > 0;
    }
  }

  /** Commands outside the machinery come and go, others move to the driver, and
      writes outside the machinery complete. */
  lemma PlainOk(s: State, head: seq<Cmd>, device: multiset<Cmd>, h: History)
    requires Inv(s)
    requires var q := s.q.(head := head, device := device);
             && (forall c: Cmd :: !c.PlainCmd? ==> q.Count(c) == s.q.Count(c))
             && (forall id :: id in s.q.rqs ==> q.Count(PlainCmd(id)) == 0)
    requires h == s.h.(written := h.written, durable := h.durable, forced := h.forced, failed := h.failed,
                       completed := h.completed)
    requires forall c: Cmd :: !c.PlainCmd? ==> h.completed[c] == s.h.completed[c]
    requires s.h.written <= h.written && s.h.durable <= h.durable
    requires forall id :: id in s.q.rqs ==> (id in h.forced <==> id in s.h.forced)
    requires forall id :: id in s.q.rqs ==> (id in h.failed <==> id in s.h.failed)
    ensures Inv(State(s.q.(head := head, device := device), h))
  {
    hide Base, Queue.Count;
    BaseParts(s, {});
    var s' := State(s.q.(head := head, device := device), h);
    forall i
      ensures DataCmdOk(s', i)
    {
      assert DataCmdOk(s, i);
    }
    AsideBase(s, s');
  }

  // --------------------------------------------------------------------- runs

  /** What can happen: a FLUSH or FUA request is inserted on a device with a
      write cache, or another write is queued; the driver takes the first
      command; it completes a command it has taken: the data of a request, the
      flush, or a write outside the machinery. */
  datatype Event =
    | Insert(id: nat, devFua: bool, flush: bool, fua: bool, data: bool)
    | Write(id: nat)
    | Fetch
    | DataDone(id: nat, error: bool)
    | FlushDone(error: bool)
    | PlainDone(id: nat, error: bool)

  ghost predicate Enabled(s: State, e: Event) {
    match e
    case Insert(id, _, _, fua, data) => Fresh(s, id) && (fua ==> data)
    case Write(id) => Fresh(s, id)
    case Fetch => s.q.head != []
    case DataDone(id, _) => DataCmd(id) in s.q.device && id in s.q.rqs
    case FlushDone(_) => FlushCmd in s.q.device && forall id :: id in s.q.List(s.q.runningIdx) ==> id in s.q.rqs
    case PlainDone(id, _) => PlainCmd(id) in s.q.device
  }

  /** The driver takes the first command of the dispatch queue. */
  function Fetched(q: Queue): Queue
    requires q.head != []
  {
    q.(head := q.head[1..], device := q.device + multiset{q.head[0]})
  }

  function PlainEndIo(s: State, id: nat, error: bool): State {
    var r := Released(s, PlainCmd(id));
    if error then r.(h := r.h.(failed := r.h.failed + {id}))
    else
      r.(h := r.h.(written := r.h.written + {id}, durable := r.h.durable + if id in r.h.forced then {id} else {}))
  }

  ghost function Next(s: State, e: Event, hz: nat, now: nat): State
    requires Enabled(s, e)
  {
    match e
    case Insert(id, devFua, flush, fua, data) => InsertFlush(s, id, true, devFua, flush, fua, data, hz, now)
    case Write(id) => s.(q := s.q.(head := s.q.head + [PlainCmd(id)]))
    case Fetch => s.(q := Fetched(s.q))
    case DataDone(id, error) => DataEndIo(s, id, error, hz, now)
    case FlushDone(error) => FlushEndIo(s, error, hz, now)
    case PlainDone(id, error) => PlainEndIo(s, id, error)
  }

  const IDLE := State(Queue(map[], [], [], false, false, 0, [], [], multiset{}),
                      History(map[], map[], map[], map[], map[], 0, [], {}, {}, {}, {}, {}, [], multiset{}))

  /** `s` is reached from the idle queue by some run of enabled events. */
  ghost predicate Reached(s: State, hz: nat, es: seq<(Event, nat)>)
    decreases |es|
  {
    if es == [] then s == IDLE
    else
      var (e, now) := es[|es| - 1];
      exists s0 :: Reached(s0, hz, es[..|es| - 1]) && Enabled(s0, e) && s == Next(s0, e, hz, now)
  }

  lemma FetchCounts(q: Queue, c: Cmd)
    requires q.head != []
    ensures Fetched(q).Count(c) == q.Count(c)
  {
    assert q.head == [q.head[0]] + q.head[1..];
  }

  lemma FetchOk(s: State)
    requires Inv(s) && Awake(s.q) && s.q.head != []
    ensures Inv(s.(q := Fetched(s.q))) && Awake(Fetched(s.q))
  {
    hide Inv, Queue.Count, Awake;
    forall c
      ensures Fetched(s.q).Count(c) == s.q.Count(c)
    {
      FetchCounts(s.q, c);
    }
    NoPlain(s);
    PlainOk(s, Fetched(s.q).head, Fetched(s.q).device, s.h);
    SameAwake(s.q, Fetched(s.q));
  }

  /** Requests outside the machinery are not sequenced. */
  lemma NoPlain(s: State)
    requires Inv(s)
    ensures forall id :: id in s.q.rqs ==> s.q.Count(PlainCmd(id)) == 0
  {
    forall id | id in s.q.rqs
      ensures s.q.Count(PlainCmd(id)) == 0
    {
      assert DataCmdOk(s, id);
    }
  }

  lemma WriteOk(s: State, id: nat)
    requires Inv(s) && Awake(s.q) && Fresh(s, id)
    ensures var q := s.q.(head := s.q.head + [PlainCmd(id)]); Inv(s.(q := q)) && Awake(q)
  {
    hide Inv, Queue.Count, Awake;
    var q := s.q.(head := s.q.head + [PlainCmd(id)]);
    WriteCounts(s.q, id);
    NoPlain(s);
    PlainOk(s, q.head, q.device, s.h);
    SameAwake(s.q, q);
  }

  lemma ReleasedCounts(s: State, c: Cmd)
    requires c in s.q.device
    ensures forall x :: Released(s, c).q.Count(x) == s.q.Count(x) - if x == c then 1 else 0
  {
  }

  lemma HeldCounts(q: Queue, c: Cmd)
    requires c in q.device
    ensures q.Count(c) > 0
  {
  }

  lemma PlainDoneOk(s: State, id: nat, error: bool)
    requires Inv(s) && Awake(s.q) && PlainCmd(id) in s.q.device
    ensures Inv(PlainEndIo(s, id, error)) && Awake(PlainEndIo(s, id, error).q)
  {
    hide Inv, Awake, Queue.Count;
    var s' := PlainEndIo(s, id, error);
    ReleasedCounts(s, PlainCmd(id));
    NoPlain(s);
    assert id !in s.q.rqs by { HeldCounts(s.q, PlainCmd(id)); }
    PlainOk(s, s'.q.head, s'.q.device, s'.h);
    SameAwake(s.q, s'.q);
  }

  lemma NextInv(s: State, e: Event, hz: nat, now: nat)
    requires Inv(s) && Awake(s.q) && Enabled(s, e)
    ensures Inv(Next(s, e, hz, now)) && Awake(Next(s, e, hz, now).q)
  {
    hide Inv, Awake, InsertFlush, DataEndIo, FlushEndIo, PlainEndIo, Fresh;
    match e
    case Insert(id, devFua, flush, fua, data) => InsertOk(s, id, devFua, flush, fua, data, hz, now);
    case Write(id) => WriteOk(s, id);
    case Fetch => FetchOk(s);
    case DataDone(id, error) => DataEndIoOk(s, id, error, hz, now);
    case FlushDone(error) => FlushEndIoOk(s, error, hz, now);
    case PlainDone(id, error) => PlainDoneOk(s, id, error);
  }

  /** Whatever the driver has taken it can complete. */
  lemma CompletionEnabled(s: State, c: Cmd, error: bool)
    requires Inv(s) && c in s.q.device
    ensures match c
            case FlushCmd => Enabled(s, FlushDone(error))
            case DataCmd(id) => Enabled(s, DataDone(id, error))
            case PlainCmd(id) => Enabled(s, PlainDone(id, error))
  {
    match c
    case FlushCmd => FlushEndIoOk(s, error, 0, 0);
    case DataCmd(id) => DataFacts(s, id);
    case PlainCmd(id) =>
  }

  /** Every reachable state: the invariant holds, so a flush in flight serves
      exactly the requests it was issued for and has one command; and no request
      waits without a command that will look after it. */
  lemma {:induction false} ReachedInv(s: State, hz: nat, es: seq<(Event, nat)>)
    requires Reached(s, hz, es)
    ensures Inv(s) && Awake(s.q)
    decreases |es|
  {
    if es != [] {
      var (e, now) := es[|es| - 1];
      var s0 :| Reached(s0, hz, es[..|es| - 1]) && Enabled(s0, e) && s == Next(s0, e, hz, now);
      ReachedInv(s0, hz, es[..|es| - 1]);
      hide Inv, Next;
      NextInv(s0, e, hz, now);
    }
  }

  // ----------------------------------------------------------------- promises

  /** In every reachable state a sequenced request has performed a prefix of
      its policy's steps in order, each once, DATA exactly when the device has
      completed its data command; its bio is ended once, when the request is
      finished, and unless it failed, after the last step - although a request
      with data completes twice. */
  lemma {:induction false} StepsInOrder(s: State, hz: nat, es: seq<(Event, nat)>, id: nat)
    requires Reached(s, hz, es) && id in s.q.rqs
    ensures id in s.h.policy && id in s.h.log && s.h.log[id] <= Steps(s.h.policy[id])
    ensures s.q.rqs[id].bioEnds == if Live(s.q, id) then 0 else 1
    ensures Live(s.q, id) ==> s.h.log[id] != Steps(s.h.policy[id])
    ensures !Live(s.q, id) && id !in s.h.failed ==> s.h.log[id] == Steps(s.h.policy[id])
    ensures s.q.rqs[id].completions == s.h.completed[DataCmd(id)] + if Live(s.q, id) then 0 else 1
    ensures id !in s.h.failed ==> s.h.completed[DataCmd(id)] == if Data in s.h.log[id] then 1 else 0
  {
    ReachedInv(s, hz, es);
    BaseKeyed(s, id);
    hide Reached, Buffers, Awake, CmdsOk, SeqFor, Effects, Placed;
    assert RqOk(s, id);
    if !Live(s.q, id) {
      StepsData(s.h.policy[id]);
    }
    hide Steps;
  }

  /** In every reachable state at most one flush command exists, queued or with
      the driver, and it does exactly while a flush is in flight, for the
      requests that waited when it was issued; the flushes issued are those
      completed and this one. No flush step was satisfied by a flush issued
      before the request joined, or one the device has not completed. */
  lemma {:induction false} NoStaleFlush(s: State, hz: nat, es: seq<(Event, nat)>)
    requires Reached(s, hz, es)
    ensures s.q.Count(FlushCmd) == if s.q.InFlight() then 1 else 0
    ensures s.h.issued == s.h.completed[FlushCmd] + s.q.Count(FlushCmd)
    ensures s.q.InFlight() ==> s.q.List(s.q.runningIdx) == s.h.waiting != []
    ensures !s.q.InFlight() ==> s.q.List(!s.q.pendingIdx) == []
    ensures forall i :: 0 <= i < |s.h.served| ==>
              s.h.served[i].joined < s.h.served[i].flush <= s.h.completed[FlushCmd]
  {
    ReachedInv(s, hz, es);
    hide Reached, RqOk, Placed, ListsOk, Awake, DataCmdOk;
  }

  /** When a flush is issued: there is none, a request waits, and either no
      sequenced data is under way or the request that has waited longest has
      waited long enough. */
  predicate Due(s: State, hz: nat, now: nat) {
    && s.q.Count(FlushCmd) == 0 && s.q.Pending() != [] && s.q.Pending()[0] in s.h.since
    && (s.q.dataInFlight == [] || now >= s.h.since[s.q.Pending()[0]] + 5 * hz)
  }

  lemma KickIffDue(s: State, hz: nat, now: nat)
    requires Inv(s)
    ensures var s' := Kick(s, hz, now);
            && s'.h.issued == s.h.issued + (if Due(s, hz, now) then 1 else 0)
            && s'.q.Count(FlushCmd) == s.q.Count(FlushCmd) + (if Due(s, hz, now) then 1 else 0)
            && (Due(s, hz, now) ==> s'.h.waiting == s.q.Pending() && s'.q.Pending() == [])
  {
    hide RqOk, Placed, ListsOk, ServedOk, DataCmdOk, CoveredBy;
  }

  /** A kick leaves nothing for a second kick. */
  lemma KickTwice(s: State, hz: nat, now: nat)
    ensures Kick(Kick(s, hz, now), hz, now) == Kick(s, hz, now)
  {
  }

  lemma {:induction false} WalkKicks(s: State, ids: seq<nat>, k: nat, error: bool, hz: nat, now: nat)
    requires (forall id :: id in ids ==> id in s.q.rqs) && ids != []
    ensures var s' := Walk(s, ids, k, error, hz, now); Kick(s', hz, now) == s'
    decreases |ids|
  {
    hide Kick, Place, Off, Marked;
    var s1 := Pushed(s, ids[0], k, error, hz, now);
    if |ids| == 1 {
      var x := State(s.q, FlushLogged(s.h, ids[0], CurSeq(s.q.rqs[ids[0]].seq_), k, error));
      assert Walk(s1, ids[1..], k, error, hz, now) == s1;
      SeqKicks(x, ids[0], {CurSeq(s.q.rqs[ids[0]].seq_)}, error, hz, now);
    } else {
      hide Pushed;
      WalkKicks(s1, ids[1..], k, error, hz, now);
    }
  }

  lemma SeqKicks(s: State, id: nat, done: set<FSeq>, error: bool, hz: nat, now: nat)
    requires id in s.q.rqs
    ensures var s' := CompleteSeq(s, id, done, error, hz, now); Kick(s', hz, now) == s'
  {
    hide Kick, Place;
    var s1 := Marked(s, id, done);
    var step := if error then Done else CurSeq(s1.q.rqs[id].seq_);
    KickTwice(Place(Off(s1, id), id, step, s.q.Pending() == [], now), hz, now);
  }

  /** No flush is overdue after a completion or the insertion of a sequenced
      request. */
  lemma NothingDue(s: State, e: Event, hz: nat, now: nat)
    requires Inv(s) && Awake(s.q) && Enabled(s, e)
    requires e.DataDone? || e.FlushDone? || (e.Insert? && e.id in Next(s, e, hz, now).q.rqs)
    ensures !Due(Next(s, e, hz, now), hz, now)
  {
    hide Inv, Kick, Walk, CompleteSeq, Due, Awake;
    var s' := Next(s, e, hz, now);
    NextInv(s, e, hz, now);
    match e {
      case Insert(id, devFua, flush, fua, data) => InsertKicks(s, id, devFua, flush, fua, data, hz, now);
      case DataDone(id, error) =>
        var r := Released(s, DataCmd(id));
        var x := State(r.q.(rqs := s.q.rqs[id := Complete(s.q.rqs[id])]), DataLogged(r.h, id, error));
        SeqKicks(x, id, {Data}, error, hz, now);
      case FlushDone(error) =>
        FlipOk(s, error);
        WalkKicks(Flipped(s, error), s.h.waiting, s.h.issued, error, hz, now);
    }
    KickIffDue(s', hz, now);
  }

  lemma InsertKicks(s: State, id: nat, devFua: bool, flush: bool, fua: bool, data: bool, hz: nat, now: nat)
    requires id !in s.q.rqs && id in InsertFlush(s, id, true, devFua, flush, fua, data, hz, now).q.rqs
    ensures var s' := InsertFlush(s, id, true, devFua, flush, fua, data, hz, now); Kick(s', hz, now) == s'
  {
    hide Kick, CompleteSeq, Policy;
    var policy := Policy(true, devFua, flush, fua, data);
    var h := s.h.(forced := s.h.forced + if fua && devFua then {id} else {});
    var q := s.q.(rqs := s.q.rqs[id := Rq({}, true, true, 0, 0)]);
    var h' := h.(policy := h.policy[id := policy], log := h.log[id := []], before := h.before[id := h.written]);
    SeqKicks(State(q, h'), id, ACTIONS - policy, false, hz, now);
  }

  /** In every reachable state a request that is not finished has a command,
      queued or with the driver, that will move it on: its own data command and
      no other, the flush it waits for, or, while it waits for a flush to be
      issued, the flush in flight or somebody's data. */
  lemma {:induction false} NoneStranded(s: State, hz: nat, es: seq<(Event, nat)>, id: nat)
    requires Reached(s, hz, es) && Live(s.q, id)
    ensures s.q.Count(DataCmd(id)) == if id in s.q.dataInFlight then 1 else 0
    ensures OnFlush(s.q, id) && id !in s.q.Pending() ==> s.q.Count(FlushCmd) == 1 && id in s.h.waiting
    ensures id in s.q.Pending() ==> s.q.Count(FlushCmd) == 1 || exists i :: s.q.Count(DataCmd(i)) == 1
  {
    ReachedInv(s, hz, es);
    hide Reached, RqOk, Placed, ListsOk;
    assert DataCmdOk(s, id);
    if id in s.q.Pending() && s.q.Count(FlushCmd) == 0 {
      var i :| s.q.Count(DataCmd(i)) > 0;
      assert DataCmdOk(s, i);
    }
  }

  /** So once all commands have completed, every request is finished. */
  lemma {:induction false} QuietIsFinished(s: State, hz: nat, es: seq<(Event, nat)>, id: nat)
    requires Reached(s, hz, es) && id in s.q.rqs && s.q.head == [] && s.q.device == multiset{}
    ensures !Live(s.q, id) && s.q.rqs[id].bioEnds == 1
  {
    hide Reached;
    StepsInOrder(s, hz, es, id);
    if Live(s.q, id) {
      NoneStranded(s, hz, es, id);
    }
  }

  /** What the steps of a request, as recorded, have brought about. */
  lemma StableRq(s: State, id: nat)
    requires Keyed(s) && id in s.q.rqs && id !in s.h.failed && RqOk(s, id) && Placed(s, id)
    ensures Preflush in s.h.policy[id] && (id in s.q.dataInFlight || !Live(s.q, id)) ==>
              s.h.before[id] <= s.h.durable
    ensures Data in s.h.policy[id] && !Live(s.q, id) ==> id in s.h.written
    ensures (Postflush in s.h.policy[id] || (Data in s.h.policy[id] && id in s.h.forced)) && !Live(s.q, id) ==>
              id in s.h.durable
  {
    if id in s.q.dataInFlight && Preflush in s.h.policy[id] {
      BeforeData(s.h.policy[id], s.h.log[id]);
    }
  }

  lemma BeforeData(policy: set<FSeq>, log: seq<FSeq>)
    requires log < Steps(policy) && At(policy, log) == Data && Preflush in policy
    ensures Preflush in log
  {
    assert |log| > 0 && log[0] == Steps(policy)[0];
  }

  /** Starting a step keeps a request live unless there is nothing left to do. */
  lemma StartedLive(s: State, id: nat, step: FSeq, first: bool, hz: nat, now: nat)
    requires id in s.q.rqs && !Live(s.q, id)
    ensures var s' := Kick(Place(s, id, step, first, now), hz, now);
            && (Live(s'.q, id) <==> step != Done) && s'.h.written == s.h.written
            && s'.q.Count(PlainCmd(id)) == s.q.Count(PlainCmd(id))
            && id in s'.q.rqs
            && (step == Done ==>
                  && s'.q.rqs[id] == Complete(Restore(s.q.rqs[id]))
                  && s'.q.Count(DataCmd(id)) == s.q.Count(DataCmd(id)))
  {
    hide Queue.Count, Complete, Restore;
    PlaceCounts(s, id, step, first, now, PlainCmd(id));
    PlaceCounts(s, id, step, first, now, DataCmd(id));
    var s1 := Place(s, id, step, first, now);
    KickCounts(s1, hz, now, PlainCmd(id));
    KickCounts(s1, hz, now, DataCmd(id));
    assert Live(s1.q, id) <==> step != Done;
    hide Place;
  }

  lemma KickCounts(s: State, hz: nat, now: nat, c: Cmd)
    requires c != FlushCmd
    ensures Kick(s, hz, now).q.Count(c) == s.q.Count(c)
  {
  }

  lemma EnteredLive(s: State, id: nat, policy: set<FSeq>, forced: set<nat>, hz: nat, now: nat)
    requires Inv(s) && Fresh(s, id) && policy <= ACTIONS
    ensures var x := Entered(s, id, policy, forced);
            && Off(x, id) == x && id in x.q.rqs
            && var s' := Kick(Place(x, id, CurSeq(x.q.rqs[id].seq_), s.q.Pending() == [], now), hz, now);
               && id in s'.q.rqs && s'.h.written == s.h.written && s'.q.Count(PlainCmd(id)) == 0
               && (Live(s'.q, id) <==> policy != {})
               && (policy == {} ==> s'.q.rqs[id].bioEnds == 1 && s'.q.Count(DataCmd(id)) == 0)
  {
    hide Base, Buffers, Kick, Place, Unlink, ListsOk, CmdsOk;
    var x := Entered(s, id, policy, forced);
    BaseParts(s, {});
    BaseWeaken(s, id);
    EnteredOff(s, id, policy, forced);
    assert DataCmdOk(s, id) by { CmdsOfAll(s, id); }
    var step := CurSeq(x.q.rqs[id].seq_);
    assert step == Done <==> policy == {};
    StartedLive(x, id, step, s.q.Pending() == [], hz, now);
  }

  lemma CmdsOfAll(s: State, id: nat)
    requires CmdsOk(s, {})
    ensures DataCmdOk(s, id)
  {
  }

  /** The filter in front of this code matters: a new request with data is left
      unfinished, with a command or waiting for a flush, exactly on a device with
      a write cache. Without one its bio is ended and nothing is written. */
  lemma DataNeedsCache(s: State, id: nat, cache: bool, devFua: bool, flush: bool, fua: bool, hz: nat, now: nat)
    requires Inv(s) && Fresh(s, id)
    ensures var s' := InsertFlush(s, id, cache, devFua, flush, fua, true, hz, now);
            && id !in s'.h.written
            && (cache <==> Live(s'.q, id) || s'.q.Count(PlainCmd(id)) == 1)
            && (!cache ==> id in s'.q.rqs && s'.q.rqs[id].bioEnds == 1 && s'.q.Count(DataCmd(id)) == 0)
  {
    hide Inv, Kick, Place, Entered, Off, Policy;
    var policy := Policy(cache, devFua, flush, fua, true);
    PolicyCases(cache, devFua, flush, fua);
    if Data in policy && Preflush !in policy && Postflush !in policy {
      assert InsertFlush(s, id, cache, devFua, flush, fua, true, hz, now).q == s.q.(head := s.q.head + [PlainCmd(id)]);
    } else {
      InsertIs(s, id, cache, devFua, flush, fua, true, hz, now);
      EnteredLive(s, id, policy, s.h.forced + if fua && devFua then {id} else {}, hz, now);
    }
  }

  lemma PolicyCases(cache: bool, devFua: bool, flush: bool, fua: bool)
    ensures var policy := Policy(cache, devFua, flush, fua, true);
            policy <= ACTIONS && (Data in policy <==> cache) && (policy == {} <==> !cache)
  {
  }

  // ------------------------------------------------------------ the queue itself

  /** list_first_entry and the next pointer of an intrusive list. */
  function First(l: seq<nat>): Option<nat> {
    if l == [] then None else Some(l[0])
  }

  function NextOf(l: seq<nat>, id: nat): Option<nat> {
    if l == [] then None else if l[0] == id then First(l[1..]) else NextOf(l[1..], id)
  }

  /** The flush part of a request_queue, updated in place. */
  class FlushQueue {
    var q: Queue
    ghost var h: History
    const hz: nat

    ghost function S(): State
      reads this
    {
      State(q, h)
    }

    constructor (hz: nat)
      ensures this.hz == hz && S() == IDLE && Inv(S()) && Awake(q)
    {
      this.hz, q, h := hz, IDLE.q, IDLE.h;
    }

    /** blk_kick_flush. */
    method KickFlush(now: nat) returns (issued: bool)
      modifies this
      ensures S() == Kick(old(S()), hz, now)
      ensures issued <==> |q.head| > |old(q).head|
    {
      var pending := q.Pending();
      if q.pendingIdx != q.runningIdx || pending == [] {
        return false;
      }
      if q.dataInFlight != [] && now < q.pendingSince + FLUSH_PENDING_TIMEOUT_SECONDS * hz {
        return false;
      }
      h := h.(issued := h.issued + 1, waiting := pending, snapshot := h.written);
      q := q.(pendingIdx := !q.pendingIdx, head := q.head + [FlushCmd]);
      issued := true;
    }

    /** The switch of blk_flush_complete_seq, for a request off the lists. */
    method StartStep(id: nat, step: FSeq, first: bool, now: nat) returns (queued: bool)
      requires id in q.rqs
      modifies this
      ensures S() == Place(old(S()), id, step, first, now)
      ensures queued <==> |q.head| > |old(q).head|
    {
      queued := false;
      match step {
        case Data =>
          q := q.(dataInFlight := q.dataInFlight + [id], head := [DataCmd(id)] + q.head);
          queued := true;
        case Done =>
          q := q.(rqs := q.rqs[id := Complete(Restore(q.rqs[id]))]);
        case _ =>
          if first {
            q := q.(pendingSince := now);
          }
          q := Append(q, q.pendingIdx, id);
          h := h.(joined := h.joined[id := h.issued], since := h.since[id := now]);
      }
    }

    /** blk_flush_complete_seq; `queued` says that commands were added to the
        dispatch queue, which must then be run. */
    method CompleteFlushSeq(id: nat, done: set<FSeq>, error: bool, now: nat) returns (queued: bool)
      requires id in q.rqs
      modifies this
      ensures S() == CompleteSeq(old(S()), id, done, error, hz, now)
      ensures queued <==> |q.head| > |old(q).head|
    {
      hide Kick, Place, Without;
      var first := q.Pending() == [];
      q := q.(rqs := q.rqs[id := q.rqs[id].(seq_ := q.rqs[id].seq_ + done)]);
      assert S() == Marked(old(S()), id, done);
      var step := if error then Done else CurSeq(q.rqs[id].seq_);
      q := Unlink(q, id);
      queued := StartStep(id, step, first, now);
      var issued := KickFlush(now);
      queued := issued || queued;
    }

    /** The body of the loop of flush_end_io. */
    method PushOn(id: nat, ghost k: nat, error: bool, now: nat) returns (queued: bool)
      requires id in q.rqs
      modifies this
      ensures S() == Pushed(old(S()), id, k, error, hz, now)
      ensures queued <==> |q.head| > |old(q).head|
    {
      hide CompleteSeq;
      var step := CurSeq(q.rqs[id].seq_);
      h := FlushLogged(h, id, step, k, error);
      queued := CompleteFlushSeq(id, {step}, error, now);
    }

    /** flush_end_io: the walk keeps a cursor and the entry after it, because the
        current entry leaves its list - while a nested kick may already have
        turned the list being walked into the pending one. */
    method FlushEnd(error: bool, now: nat) returns (queued: bool)
      requires Inv(S()) && FlushCmd in q.device
      modifies this
      ensures forall id :: id in old(q).List(old(q).runningIdx) ==> id in old(q).rqs
      ensures S() == FlushEndIo(old(S()), error, hz, now) && Inv(S()) && Awake(q)
      ensures queued <==> |q.head| > |old(q).head|
    {
      hide Base, Buffers, Inv, Walk, Pushed, Walking, FlushEndIo, Awake, NextOf;
      FlushEndIoOk(S(), error, hz, now);
      WalkStarts(S(), error, hz, now);
      ghost var k, stable, rest := h.issued, h.snapshot, h.waiting;
      ghost var goal := FlushEndIo(S(), error, hz, now);
      var idx := q.runningIdx;
      q := q.(device := q.device - multiset{FlushCmd});
      h := h.(completed := h.completed + multiset{FlushCmd});
      q := q.(runningIdx := !q.runningIdx);
      h := if error then h else h.(durable := h.durable + h.snapshot);
      queued := false;
      var rq := First(q.List(idx));
      WalkCursor(S(), rest, k, stable, error, idx, hz, now, goal);
      var n := if rq.Some? then NextOf(q.List(idx), rq.value) else None;
      while rq.Some?
        invariant Walking(S(), rest, k, stable, error, idx, hz, now, goal)
        invariant rq == First(rest) && (rq.Some? ==> n == NextOf(rest, rq.value))
        invariant |q.head| >= |old(q).head| && (queued <==> |q.head| > |old(q).head|)
        decreases |rest|
      {
        FirstIs(rest);
        WalkingStep(S(), rest, k, stable, error, idx, hz, now, goal);
        var more := PushOn(rq.value, k, error, now);
        queued := queued || more;
        NextIs(rest);
        rq := n;
        rest := rest[1..];
        WalkCursor(S(), rest, k, stable, error, idx, hz, now, goal);
        n := if rq.Some? then NextOf(q.List(idx), rq.value) else None;
      }
      FirstIs(rest);
      WalkingEnds(S(), k, stable, error, idx, hz, now, goal);
    }

    /** flush_data_end_io, reached from the completion of the data of `id`. */
    method DataEnd(id: nat, error: bool, now: nat) returns (queued: bool)
      requires Inv(S()) && DataCmd(id) in q.device
      modifies this
      ensures id in old(q).rqs && S() == DataEndIo(old(S()), id, error, hz, now) && Inv(S()) && Awake(q)
      ensures queued <==> |q.head| > |old(q).head|
    {
      hide Inv, CompleteSeq, Awake;
      DataEndIoOk(S(), id, error, hz, now);
      q := q.(device := q.device - multiset{DataCmd(id)}, rqs := q.rqs[id := Complete(q.rqs[id])]);
      h := DataLogged(h.(completed := h.completed + multiset{DataCmd(id)}), id, error);
      queued := CompleteFlushSeq(id, {Data}, error, now);
    }

    /** blk_insert_flush, on a device with a write cache. */
    method InsertRq(id: nat, devFua: bool, flush: bool, fua: bool, data: bool, now: nat)
      requires Inv(S()) && Awake(q) && Fresh(S(), id) && (fua ==> data)
      modifies this
      ensures S() == InsertFlush(old(S()), id, true, devFua, flush, fua, data, hz, now) && Inv(S()) && Awake(q)
    {
      hide Inv, CompleteSeq, Awake;
      InsertOk(S(), id, devFua, flush, fua, data, hz, now);
      var policy := Policy(true, devFua, flush, fua, data);
      h := h.(forced := h.forced + if fua && devFua then {id} else {});
      if Data in policy && Preflush !in policy && Postflush !in policy {
        q := q.(head := q.head + [PlainCmd(id)]);
        return;
      }
      q := q.(rqs := q.rqs[id := Rq({}, true, true, 0, 0)]);
      h := h.(policy := h.policy[id := policy], log := h.log[id := []], before := h.before[id := h.written]);
      var queued := CompleteFlushSeq(id, ACTIONS - policy, false, now);
    }
  }

  /** The walk is at `s`, `rest` of the walked list is left, and going on will
      lead to `goal`. */
  ghost predicate Walking(s: State, rest: seq<nat>, k: nat, stable: set<nat>, error: bool, idx: bool,
                          hz: nat, now: nat, goal: State)
  {
    && Base(s, {}) && Buffers(s, rest, k, stable) && (!error ==> stable <= s.h.durable)
    && s.q.runningIdx == !idx
    && (forall id :: id in rest ==> id in s.q.rqs) && Walk(s, rest, k, error, hz, now) == goal
  }

  lemma WalkStarts(s: State, error: bool, hz: nat, now: nat)
    requires Inv(s) && FlushCmd in s.q.device
    requires forall id :: id in s.q.List(s.q.runningIdx) ==> id in s.q.rqs
    ensures Walking(Flipped(s, error), s.h.waiting, s.h.issued, s.h.snapshot, error, s.q.runningIdx, hz, now,
                    FlushEndIo(s, error, hz, now))
    ensures s.q.List(s.q.runningIdx) == s.h.waiting != []
  {
    FlipOk(s, error);
    hide Walk, Base;
  }

  lemma WalkingStep(s: State, rest: seq<nat>, k: nat, stable: set<nat>, error: bool, idx: bool,
                    hz: nat, now: nat, goal: State)
    requires Walking(s, rest, k, stable, error, idx, hz, now, goal) && rest != []
    ensures rest[0] in s.q.rqs
    ensures Walking(Pushed(s, rest[0], k, error, hz, now), rest[1..], k, stable, error, idx, hz, now, goal)
    ensures |Pushed(s, rest[0], k, error, hz, now).q.head| >= |s.q.head|
  {
    hide Base, Buffers, Pushed;
    PushedOk(s, rest, k, stable, error, hz, now);
  }

  /** While the walk goes on, what is left of it is the walked list. */
  lemma WalkCursor(s: State, rest: seq<nat>, k: nat, stable: set<nat>, error: bool, idx: bool,
                   hz: nat, now: nat, goal: State)
    requires Walking(s, rest, k, stable, error, idx, hz, now, goal)
    ensures rest != [] ==> s.q.List(idx) == rest
    ensures First(rest).Some? ==> rest != []
  {
    hide Base, Walk;
  }

  lemma WalkingEnds(s: State, k: nat, stable: set<nat>, error: bool, idx: bool, hz: nat, now: nat, goal: State)
    requires Walking(s, [], k, stable, error, idx, hz, now, goal)
    ensures s == goal
  {
  }

  lemma FirstIs(l: seq<nat>)
    ensures if l == [] then First(l) == None else First(l) == Some(l[0])
  {
  }

  lemma NextIs(l: seq<nat>)
    requires l != []
    ensures NextOf(l, l[0]) == First(l[1..])
  {
  }
}

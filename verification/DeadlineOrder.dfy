/** In which order the deadline scheduler dispatches, said by the sectors and the
    expiry times of the queued requests: a batch goes up from the request that
    was dispatched last, and where it cannot, starts at the oldest request.
 */
module DeadlineOrder {
  import opened Lists
  import opened Deadline

  // ----------------------------------------------------------- next by sector

  /** `y` is the request of `q` with the least sector above `pos`. */
  ghost predicate Least(rqs: map<nat, Rq>, q: seq<nat>, pos: nat, y: nat) {
    && y in q && y in rqs && pos < rqs[y].pos
    && forall z :: z in q && z in rqs && pos < rqs[z].pos && z != y ==> rqs[y].pos < rqs[z].pos
  }

  ghost function LeastAbove(rqs: map<nat, Rq>, q: seq<nat>, pos: nat): Option<nat> {
    if y :| Least(rqs, q, pos, y) then Some(y) else None
  }

  lemma LeastIs(rqs: map<nat, Rq>, q: seq<nat>, pos: nat, y: nat)
    requires Least(rqs, q, pos, y)
    ensures LeastAbove(rqs, q, pos) == Some(y)
  {
  }

  /** rb_next of `id` in a tree is the request with the next sector among any
      requests that are those of the tree above it. */
  lemma LatterLeast(rqs: map<nat, Rq>, l: seq<nat>, d: Dir, id: nat, q: seq<nat>)
    requires TreeOk(rqs, l, d) && id in l
    requires forall x :: x in rqs && rqs[id].pos < rqs[x].pos ==> (x in q <==> x in l)
    ensures id in rqs && Latter(l, id) == LeastAbove(rqs, q, rqs[id].pos)
  {
    var i :| 0 <= i < |l| && l[i] == id;
    LatterAt(l, i);
    hide Latter, Distinct;
    if i + 1 < |l| {
      var y := l[i + 1];
      assert rqs[id].pos < rqs[y].pos;
      forall z | z in q && z in rqs && rqs[id].pos < rqs[z].pos && z != y
        ensures rqs[y].pos < rqs[z].pos
      {
        var j :| 0 <= j < |l| && l[j] == z;
        assert i + 1 < j;
      }
      LeastIs(rqs, q, rqs[id].pos, y);
    } else {
      assert forall j :: 0 <= j < |l| ==> rqs[l[j]].pos <= rqs[id].pos;
    }
  }

  // -------------------------------------------------------------- the tracking

  /** What the order of dispatch depends on besides the queued requests, kept by
      looking at what is dispatched: the request to go on with, how many were
      dispatched in this batch, and how many read batches were started since the
      last write batch while writes were queued. */
  datatype Track = Track(upcoming: Option<nat>, sent: nat, passed: nat)

  const START := Track(None, 0, 0)

  /** The request next above `x`, which has just left the queue. */
  ghost function Above(s: Dd, x: nat): Option<nat>
    requires x in s.rqs
  {
    LeastAbove(s.rqs, s.fifo.Get(s.rqs[x].dir), s.rqs[x].pos)
  }

  /** The request dispatched in a step from `s` to `s'`, if any. */
  function Gone(s: Dd, s': Dd): Option<nat> {
    if |s'.head| > |s.head| then Some(s'.head[|s'.head| - 1]) else None
  }

  /** The batch may be continued. */
  predicate Entitled(t: Tuning, k: Track) {
    k.upcoming.Some? && k.sent < t.fifoBatch
  }

  /** The direction of a new batch: reads, unless there are none or they have
      passed waiting writes often enough. */
  function Side(s: Dd, t: Tuning, k: Track): Dir {
    if s.fifo.read != [] && (s.fifo.write == [] || k.passed < t.writesStarved) then Read else Write
  }

  /** How a step from `s` to `s'` is tracked. Whatever is dispatched, by a call or
      to make room, the batch goes on above it; a request to go on with that is
      merged into another one is replaced by the one above it; arrivals do not
      matter. */
  ghost function Track1(s: Dd, t: Tuning, e: Event, s': Dd, k: Track): Track
    requires forall x :: x in s'.head ==> x in s'.rqs
    requires e.MergeTwo? ==> e.gone in s'.rqs
  {
    var up := match Gone(s, s')
              case Some(x) => Above(s', x)
              case None => if e.MergeTwo? && k.upcoming == Some(e.gone) then Above(s', e.gone) else k.upcoming;
    if !e.Call? || Gone(s, s').None? then k.(upcoming := up)
    else if Entitled(t, k) then Track(up, k.sent + 1, k.passed)
    else if Side(s, t, k) == Read then Track(up, 1, k.passed + if s.fifo.write != [] then 1 else 0)
    else Track(up, 1, 0)
  }

  // ------------------------------------------------- the scheduler is as tracked

  function Next(s: Dd): Option<nat> {
    if s.next.write.Some? then s.next.write else s.next.read
  }

  ghost predicate Agrees(s: Dd, k: Track) {
    && s.batching == k.sent && s.starved == k.passed
    && Next(s) == k.upcoming
  }

  lemma Trees(s: Dd, t: Tuning, out: set<nat>, loose: set<nat>, clock: nat, d: Dir)
    requires Mid(s, t, out, loose, clock)
    ensures TreeOk(s.rqs, s.sort.Get(d), d) && Same(s.sort.Get(d), s.fifo.Get(d), out)
    ensures Distinct(s.fifo.Get(d)) && Homed(s.rqs, s.fifo.Get(d), d)
  {
    hide HeadOk, AllThere, TreeOk, Same;
    assert DirOk(s, d, out, clock + t.expire.Get(d));
  }

  /** After a move the batch goes on with the request above, among what is queued
      above it in the end. */
  lemma MoveAbove(s: Dd, t: Tuning, out: set<nat>, loose: set<nat>, clock: nat, x: nat, q: seq<nat>)
    requires Mid(s, t, out, loose, clock) && x in s.rqs && x in s.sort.Get(s.rqs[x].dir)
    requires forall y :: y in s.rqs && s.rqs[x].pos < s.rqs[y].pos ==> (y in q <==> y in s.sort.Get(s.rqs[x].dir))
    ensures Next(Move(s, x)) == LeastAbove(s.rqs, q, s.rqs[x].pos)
  {
    hide Mid, Latter, LeastAbove, TreeOk;
    Trees(s, t, out, loose, clock, s.rqs[x].dir);
    LatterLeast(s.rqs, s.sort.Get(s.rqs[x].dir), s.rqs[x].dir, x, q);
  }

  // ---------------------------------------------------------------- one by one

  /** What holds after a step, before anything is said about the order. */
  lemma StepKnown(s: Dd, t: Tuning, clock: nat, e: Event)
    requires Inv(s, t, clock) && Enabled(s, e) && clock <= e.now
    ensures var s' := Step(s, t, clock, e);
            && (forall x :: x in s'.head ==> x in s'.rqs) && (e.MergeTwo? ==> e.gone in s'.rqs)
  {
    hide Step, Mid;
    StepOk(s, t, clock, e);
    HeadKnown(Step(s, t, clock, e), t, e.now);
    if e.MergeTwo? {
      MergedStep(s, t, clock, e);
    }
  }

  lemma HeadKnown(s: Dd, t: Tuning, clock: nat)
    requires Mid(s, t, {}, {}, clock)
    ensures forall x :: x in s.head ==> x in s.rqs
  {
    hide DirOk, AllThere;
  }

  lemma MergedStep(s: Dd, t: Tuning, clock: nat, e: Event)
    requires Inv(s, t, clock) && Enabled(s, e) && e.MergeTwo?
    ensures Step(s, t, clock, e) == Merged(s, e.id, e.gone) && e.gone in Step(s, t, clock, e).rqs
  {
    hide Mid;
    MergedShape(s, e.id, e.gone);
    assert e.gone in Merged(s, e.id, e.gone).rqs.Keys;
  }

  /** Making room dispatches nothing, or a request of that sector, and the batch
      goes on above it. */
  ghost predicate MadeRoom(s: Dd, r: Dd, d: Dir, pos: nat, q: seq<nat>) {
    && r.batching == s.batching && r.starved == s.starved
    && (|| (r.head == s.head && Next(r) == Next(s))
        || (&& |r.head| == |s.head| + 1 && Next(r) == LeastAbove(s.rqs, q, pos)
            && var a := r.head[|s.head|]; a in s.rqs && s.rqs[a].dir == d && s.rqs[a].pos == pos))
  }

  lemma Room(s: Dd, t: Tuning, out: set<nat>, loose: set<nat>, clock: nat, id: nat, q: seq<nat>)
    requires Mid(s, t, out, loose, clock) && id in s.rqs && Homed(s.rqs, s.sort.Get(s.rqs[id].dir), s.rqs[id].dir)
    requires forall y :: y in s.rqs && s.rqs[id].pos < s.rqs[y].pos ==> (y in q <==> y in s.sort.Get(s.rqs[id].dir))
    ensures MadeRoom(s, Cleared(s, id), s.rqs[id].dir, s.rqs[id].pos, q)
  {
    var d := s.rqs[id].dir;
    match Alias(s.rqs, s.sort.Get(d), s.rqs[id].pos) {
      case None =>
      case Some(a) =>
        MoveAbove(s, t, out, loose, clock, a, q);
        hide Mid, LeastAbove, Latter, Without;
    }
  }

  /** What is above a sector once room is made there, and `id` is put there. */
  lemma AboveRoom(s: Dd, t: Tuning, out: set<nat>, loose: set<nat>, clock: nat, id: nat, q: seq<nat>)
    requires Mid(s, t, out, loose, clock) && id in s.rqs && Homed(s.rqs, s.sort.Get(s.rqs[id].dir), s.rqs[id].dir)
    requires out <= {id}
    requires q == Cleared(s, id).fifo.Get(s.rqs[id].dir) || q == Cleared(s, id).fifo.Get(s.rqs[id].dir) + [id]
    ensures forall y :: y in s.rqs && s.rqs[id].pos < s.rqs[y].pos ==> (y in q <==> y in s.sort.Get(s.rqs[id].dir))
  {
    var d := s.rqs[id].dir;
    Trees(s, t, out, loose, clock, d);
    match Alias(s.rqs, s.sort.Get(d), s.rqs[id].pos) {
      case None => hide Mid, TreeOk, Distinct;
      case Some(a) =>
        WithoutMembers(s.fifo.Get(d), a);
        hide Mid, TreeOk, Distinct, Latter, Without;
    }
  }

  /** So tracking an arrival or a front merge. */
  lemma RoomTracked(s: Dd, s0: Dd, r: Dd, t: Tuning, e: Event, s': Dd, k: Track, d: Dir, pos: nat)
    requires Agrees(s, k) && (e.Arrive? || e.MergeFront?)
    requires s0.head == s.head && s0.next == s.next && s0.batching == s.batching && s0.starved == s.starved
    requires s'.rqs == s0.rqs && s'.head == r.head && s'.next == r.next
    requires s'.batching == r.batching && s'.starved == r.starved && MadeRoom(s0, r, d, pos, s'.fifo.Get(d))
    requires forall x :: x in s'.head ==> x in s'.rqs
    ensures Agrees(s', Track1(s, t, e, s', k))
  {
    hide LeastAbove;
  }

  lemma ArriveTracked(s: Dd, t: Tuning, clock: nat, e: Event, k: Track)
    requires Inv(s, t, clock) && Enabled(s, e) && clock <= e.now && Agrees(s, k) && e.Arrive?
    requires forall x :: x in Step(s, t, clock, e).head ==> x in Step(s, t, clock, e).rqs
    ensures var s' := Step(s, t, clock, e); Agrees(s', Track1(s, t, e, s', k))
  {
    hide Mid, Cleared, Insert, MadeRoom, Agrees, Track1;
    var (id, d, pos, now) := (e.id, e.dir, e.pos, e.now);
    var rq := Rq(d, pos, now + t.expire.Get(d));
    var s0 := s.(rqs := s.rqs[id := rq], nrSorted := s.nrSorted + 1);
    Later(s, t, clock, now);
    RegisterOk(s, t, id, rq, now);
    var s' := Step(s, t, clock, e);
    AboveRoom(s0, t, {}, {id}, now, id, s'.fifo.Get(d));
    Room(s0, t, {}, {id}, now, id, s'.fifo.Get(d));
    RoomTracked(s, s0, Cleared(s0, id), t, e, s', k, d, pos);
  }

  lemma FrontTracked(s: Dd, t: Tuning, clock: nat, e: Event, k: Track)
    requires Inv(s, t, clock) && Enabled(s, e) && clock <= e.now && Agrees(s, k) && e.MergeFront?
    requires forall x :: x in Step(s, t, clock, e).head ==> x in Step(s, t, clock, e).rqs
    ensures var s' := Step(s, t, clock, e); Agrees(s', Track1(s, t, e, s', k))
  {
    hide Mid, Cleared, Insert, MadeRoom, Agrees, Track1, Without;
    var (id, pos) := (e.id, e.pos);
    var s0 := Lifted(s, id, pos);
    LiftedOk(s, t, id, pos, clock);
    Trees(s0, t, {id}, {}, clock, s.rqs[id].dir);
    var s' := Step(s, t, clock, e);
    AboveRoom(s0, t, {id}, {}, clock, id, s'.fifo.Get(s.rqs[id].dir));
    Room(s0, t, {id}, {}, clock, id, s'.fifo.Get(s.rqs[id].dir));
    RoomTracked(s, s0, Cleared(s0, id), t, e, s', k, s.rqs[id].dir, pos);
  }

  /** A merge replaces a request to go on with, if that is the one merged away. */
  lemma MergeNext(s: Dd, id: nat, gone: nat)
    requires Mergeable(s, id, gone) && (s.next.read.None? || s.next.write.None?)
    requires Next(s) == Some(gone) ==> s.next.Get(s.rqs[id].dir) == Some(gone)
    ensures var s' := Merged(s, id, gone);
            && s'.head == s.head && s'.batching == s.batching && s'.starved == s.starved
            && Next(s') == if Next(s) == Some(gone) then Latter(s.sort.Get(s.rqs[id].dir), gone) else Next(s)
  {
    hide Without, Latter, InsertAfter;
  }

  lemma MergeAbove(s: Dd, t: Tuning, clock: nat, id: nat, gone: nat)
    requires Inv(s, t, clock) && Mergeable(s, id, gone)
    ensures var s' := Merged(s, id, gone);
            gone in s'.rqs && Latter(s.sort.Get(s.rqs[id].dir), gone) == Above(s', gone)
  {
    var d, s' := s.rqs[id].dir, Merged(s, id, gone);
    Trees(s, t, {}, {}, clock, d);
    Apart(s, t, clock, id);
    hide Mid, TreeOk, FifoOk, Distinct, Latter, LeastAbove, Without, InsertAfter;
    MergedFifo(s, id, gone, clock + t.expire.Get(d));
    TreeFrame(s.rqs, s'.rqs, s.sort.Get(d), d);
    LatterLeast(s'.rqs, s.sort.Get(d), d, gone, s'.fifo.Get(d));
  }

  lemma MergeTracked(s: Dd, t: Tuning, clock: nat, e: Event, k: Track)
    requires Inv(s, t, clock) && Enabled(s, e) && clock <= e.now && Agrees(s, k) && e.MergeTwo?
    requires e.gone in Step(s, t, clock, e).rqs
    requires forall x :: x in Step(s, t, clock, e).head ==> x in Step(s, t, clock, e).rqs
    ensures var s' := Step(s, t, clock, e); Agrees(s', Track1(s, t, e, s', k))
  {
    hide Mid, Merged, Latter, Above;
    NextKnown(s, t, clock);
    assert s.next.Get(Write).Some? ==> s.rqs[s.next.Get(Write).value].dir == Write;
    assert s.next.Get(Read).Some? ==> s.rqs[s.next.Get(Read).value].dir == Read;
    MergeNext(s, e.id, e.gone);
    MergeAbove(s, t, clock, e.id, e.gone);
  }

  /** A request to go on with is queued in its direction. */
  lemma NextKnown(s: Dd, t: Tuning, clock: nat)
    requires Inv(s, t, clock)
    ensures s.next.read.None? || s.next.write.None?
    ensures forall d :: s.next.Get(d).Some? ==>
              var y := s.next.Get(d).value; y in s.fifo.Get(d) && y in s.rqs && s.rqs[y].dir == d
  {
    hide HeadOk, AllThere, Same, Distinct, Ascending, ByExpiry;
    forall d | s.next.Get(d).Some?
      ensures var y := s.next.Get(d).value; y in s.fifo.Get(d) && y in s.rqs && s.rqs[y].dir == d
    {
      assert DirOk(s, d, {}, clock + t.expire.Get(d));
    }
  }

  // ---------------------------------------------------------------------- calls

  /** No queued request of the direction expires before `z`. */
  ghost predicate Oldest(s: Dd, d: Dir, z: nat) {
    && z in s.fifo.Get(d) && z in s.rqs
    && forall w :: w in s.fifo.Get(d) && w in s.rqs ==> s.rqs[z].fifoTime <= s.rqs[w].fifoTime
  }

  /** Some queued request of the direction has expired. */
  ghost predicate Expired(s: Dd, d: Dir, now: nat) {
    exists w :: w in s.fifo.Get(d) && w in s.rqs && s.rqs[w].fifoTime < now
  }

  /** What a call must dispatch: the next request of a batch that may go on; else
      a new batch starts, in the direction whose turn it is, at the oldest request
      if one has expired or the last batch was of the other direction or has come
      to the end, and otherwise again with the next request. */
  ghost predicate Right(s: Dd, t: Tuning, k: Track, now: nat, z: nat) {
    var d := Side(s, t, k);
    if Entitled(t, k) then k.upcoming == Some(z)
    else if k.upcoming.Some? && k.upcoming.value in s.fifo.Get(d) && !Expired(s, d, now) then k.upcoming == Some(z)
    else Oldest(s, d, z)
  }

  lemma FirstOldest(s: Dd, t: Tuning, clock: nat, d: Dir, now: nat)
    requires Inv(s, t, clock) && s.fifo.Get(d) != []
    ensures var x := s.fifo.Get(d)[0]; Oldest(s, d, x) && (Expired(s, d, now) <==> s.rqs[x].fifoTime < now)
  {
    hide HeadOk, AllThere, TreeOk, Same, Distinct;
    assert DirOk(s, d, {}, clock + t.expire.Get(d));
    var l := s.fifo.Get(d);
    assert ByExpiry(s.rqs, l);
    assert l[0] in l;
    forall w | w in l
      ensures s.rqs[l[0]].fifoTime <= s.rqs[w].fifoTime
    {
      var i :| 0 <= i < |l| && l[i] == w;
    }
  }

  /** The other direction's FIFO has not got it. */
  lemma NextSide(s: Dd, t: Tuning, clock: nat, d: Dir)
    requires Inv(s, t, clock)
    ensures Next(s).Some? ==> (Next(s).value in s.fifo.Get(d) <==> Next(s) == s.next.Get(d))
    ensures Next(s).None? ==> s.next.Get(d).None?
  {
    NextKnown(s, t, clock);
    Basics(s, t, clock, Read);
    Basics(s, t, clock, Write);
    hide Inv, Distinct;
  }

  lemma ChoiceRight(s: Dd, t: Tuning, clock: nat, now: nat, k: Track)
    requires Inv(s, t, clock) && clock <= now && Agrees(s, k) && (s.fifo.read != [] || s.fifo.write != [])
    requires Known(s.rqs, s.fifo.read) && Known(s.rqs, s.fifo.write)
    ensures var c := Choose(s, t, now);
            && c.Pick? && Right(s, t, k, now, c.id)
            && c.batching == (if Entitled(t, k) then k.sent + 1 else 1)
            && c.starved == (if Entitled(t, k) then k.passed
                             else if Side(s, t, k) == Write then 0
                             else k.passed + if s.fifo.write != [] then 1 else 0)
  {
    var d := Side(s, t, k);
    assert s.fifo.Get(d) != [];
    FirstOldest(s, t, clock, d, now);
    NextSide(s, t, clock, d);
    hide Inv, Oldest, Expired;
  }

  /** A call with work to do dispatches the right request. */
  lemma CallRight(s: Dd, t: Tuning, clock: nat, now: nat, k: Track)
    requires Inv(s, t, clock) && clock <= now && Agrees(s, k) && (s.fifo.read != [] || s.fifo.write != [])
    ensures var s' := Step(s, t, clock, Call(now));
            s' == Dispatch(s, t, now).0 && exists z :: s'.head == s.head + [z] && Right(s, t, k, now, z)
  {
    Basics(s, t, clock, Read);
    Basics(s, t, clock, Write);
    Later(s, t, clock, now);
    hide Inv, Choose, Right, Agrees;
    ChoiceRight(s, t, clock, now, k);
    CallSplits(s, t, now);
  }

  /** What a call does besides: the request chosen leaves, and the counters are set. */
  lemma CallMoves(s: Dd, t: Tuning, clock: nat, now: nat)
    requires Inv(s, t, clock) && (s.fifo.read != [] || s.fifo.write != [])
    ensures var c, s' := Choose(s, t, now), Step(s, t, clock, Call(now));
            && c.Pick? && c.id in s.rqs && s'.head == s.head + [c.id] && s'.rqs == s.rqs
            && s'.batching == c.batching && s'.starved == c.starved && Next(s') == Above(s', c.id)
            && var d := s.rqs[c.id].dir;
               forall x :: x in s'.fifo.Get(d) <==> x in s.fifo.Get(d) && x != c.id
  {
    ChooseOk(s, t, clock, now);
    var c, s' := Choose(s, t, now), Step(s, t, clock, Call(now));
    var d := s.rqs[c.id].dir;
    Trees(s, t, {}, {}, clock, d);
    hide Mid, Choose, TreeOk, Latter, LeastAbove;
    WithoutMembers(s.fifo.Get(d), c.id);
    hide Without, Distinct;
    MoveAbove(s, t, {}, {}, clock, c.id, s'.fifo.Get(d));
  }

  lemma CallTracked(s: Dd, t: Tuning, clock: nat, e: Event, k: Track)
    requires Inv(s, t, clock) && Enabled(s, e) && clock <= e.now && Agrees(s, k) && e.Call?
    requires forall x :: x in Step(s, t, clock, e).head ==> x in Step(s, t, clock, e).rqs
    ensures var s' := Step(s, t, clock, e); Agrees(s', Track1(s, t, e, s', k))
  {
    hide Inv, Step, Choose, Right, Above;
    if s.fifo.read == [] && s.fifo.write == [] {
      NothingToDo(s, t, clock, e.now);
    } else {
      KnownBoth(s, t, clock);
      ChoiceRight(s, t, clock, e.now, k);
      CallMoves(s, t, clock, e.now);
    }
  }

  lemma KnownBoth(s: Dd, t: Tuning, clock: nat)
    requires Inv(s, t, clock)
    ensures Known(s.rqs, s.fifo.read) && Known(s.rqs, s.fifo.write)
  {
    hide Inv, Distinct;
    Basics(s, t, clock, Read);
    Basics(s, t, clock, Write);
  }

  lemma StepTracked(s: Dd, t: Tuning, clock: nat, e: Event, k: Track)
    requires Inv(s, t, clock) && Enabled(s, e) && clock <= e.now && Agrees(s, k)
    ensures var s' := Step(s, t, clock, e);
            && (forall x :: x in s'.head ==> x in s'.rqs) && (e.MergeTwo? ==> e.gone in s'.rqs)
            && Agrees(s', Track1(s, t, e, s', k))
  {
    hide *;
    StepKnown(s, t, clock, e);
    match e
    case Arrive(_, _, _, _) => ArriveTracked(s, t, clock, e, k);
    case MergeFront(_, _, _) => FrontTracked(s, t, clock, e, k);
    case MergeTwo(_, _, _) => MergeTracked(s, t, clock, e, k);
    case Call(_) => CallTracked(s, t, clock, e, k);
  }

  // ----------------------------------------------------------------------- runs

  /** The sectors and expiry times this is about: those a request arrives with,
      a sector moved by a front merge, and the earlier expiry of two requests that
      are merged. */
  lemma StepRecords(s: Dd, t: Tuning, clock: nat, e: Event)
    requires Inv(s, t, clock) && Enabled(s, e) && clock <= e.now
    ensures Step(s, t, clock, e).rqs ==
            match e
            case Arrive(id, d, pos, now) => s.rqs[id := Rq(d, pos, now + t.expire.Get(d))]
            case MergeFront(id, pos, _) => s.rqs[id := s.rqs[id].(pos := pos)]
            case MergeTwo(id, gone, _) =>
              s.rqs[id := s.rqs[id].(fifoTime := Min(s.rqs[id].fifoTime, s.rqs[gone].fifoTime))]
            case Call(_) => s.rqs
  {
    Basics(s, t, clock, Read);
    Basics(s, t, clock, Write);
    hide Mid, Choose, Insert, Without, Latter, InsertAfter, Alias, Distinct;
  }

  /** The tracking of a whole run. */
  ghost function Tracked(s: Dd, t: Tuning, clock: nat, es: seq<Event>, k: Track): Track
    requires Inv(s, t, clock) && Legal(s, t, clock, es)
    decreases |es|
  {
    if es == [] then k
    else
      StepOk(s, t, clock, es[0]);
      StepKnown(s, t, clock, es[0]);
      var s' := Step(s, t, clock, es[0]);
      Tracked(s', t, es[0].now, es[1..], Track1(s, t, es[0], s', k))
  }

  lemma {:induction false} RunTracked(s: Dd, t: Tuning, clock: nat, es: seq<Event>, k: Track)
    requires Inv(s, t, clock) && Legal(s, t, clock, es) && Agrees(s, k)
    ensures Agrees(Run(s, t, clock, es), Tracked(s, t, clock, es, k))
    decreases |es|
  {
    hide Inv, Step, Agrees, Track1, Enabled;
    if es != [] {
      StepOk(s, t, clock, es[0]);
      StepTracked(s, t, clock, es[0], k);
      var s' := Step(s, t, clock, es[0]);
      RunTracked(s', t, es[0].now, es[1..], Track1(s, t, es[0], s', k));
    }
  }

  /** A run from the empty queue, where it leads, and its tracking. */
  ghost predicate LegalRun(t: Tuning, es: seq<Event>) {
    Inv(EMPTY, t, 0) && Legal(EMPTY, t, 0, es)
  }

  ghost function Reached(t: Tuning, es: seq<Event>): (s: Dd)
    requires LegalRun(t, es)
    ensures Inv(s, t, LastTime(0, es))
  {
    RunInv(EMPTY, t, 0, es);
    Run(EMPTY, t, 0, es)
  }

  ghost function TrackOf(t: Tuning, es: seq<Event>): Track
    requires LegalRun(t, es)
  {
    Tracked(EMPTY, t, 0, es, START)
  }

  lemma ReachedAgrees(t: Tuning, es: seq<Event>)
    requires LegalRun(t, es)
    ensures Agrees(Reached(t, es), TrackOf(t, es))
  {
    hide Inv, Run, Tracked, Legal;
    RunTracked(EMPTY, t, 0, es, START);
  }

  /** Over every run, with arrivals and merges: a call with work to do dispatches
      one request, the one that the sectors, the expiry times and the batches so
      far ask for. */
  lemma DispatchOrder(t: Tuning, es: seq<Event>, now: nat)
    requires LegalRun(t, es) && LastTime(0, es) <= now
    ensures var s := Reached(t, es);
            var s' := Step(s, t, LastTime(0, es), Call(now));
            if s.fifo == Two([], []) then s' == s
            else exists z :: s'.head == s.head + [z] && Right(s, t, TrackOf(t, es), now, z)
  {
    hide *;
    ReachedAgrees(t, es);
    var s := Reached(t, es);
    if s.fifo.read == [] && s.fifo.write == [] {
      NothingToDo(s, t, LastTime(0, es), now);
    } else {
      CallRight(s, t, LastTime(0, es), now, TrackOf(t, es));
    }
  }

  lemma NothingToDo(s: Dd, t: Tuning, clock: nat, now: nat)
    requires Inv(s, t, clock) && s.fifo.read == [] && s.fifo.write == []
    ensures Step(s, t, clock, Call(now)) == s
  {
    ChooseOk(s, t, clock, now);
    hide Choose, Inv;
  }

  // ------------------------------------------------------------- a whole batch

  /** `z` is queued for `d`, above `pos`. */
  ghost predicate Beyond(s: Dd, d: Dir, pos: nat, z: nat) {
    z in s.fifo.Get(d) && z in s.rqs && pos < s.rqs[z].pos
  }

  ghost function Higher(s: Dd, d: Dir, pos: nat): set<nat> {
    set z | z in s.fifo.Get(d) && Beyond(s, d, pos, z)
  }

  /** `l` are the first of the requests above `pos`, in the order of their sectors. */
  ghost predicate Ladder(s: Dd, d: Dir, pos: nat, l: seq<nat>) {
    && (forall i :: 0 <= i < |l| ==> Beyond(s, d, pos, l[i]))
    && (forall i, j :: 0 <= i < j < |l| ==> s.rqs[l[i]].pos < s.rqs[l[j]].pos)
    && (forall z :: Beyond(s, d, pos, z) && z !in l && l != [] ==> s.rqs[l[|l| - 1]].pos < s.rqs[z].pos)
  }

  lemma {:induction false} LowestOf(rqs: map<nat, Rq>, l: seq<nat>, pos: nat, z: nat) returns (i: nat)
    requires Known(rqs, l) && Ascending(rqs, l) && z in l && pos < rqs[z].pos
    ensures i < |l| && pos < rqs[l[i]].pos && forall j :: 0 <= j < i ==> rqs[l[j]].pos <= pos
  {
    if pos < rqs[l[0]].pos {
      i := 0;
    } else {
      i := LowestOf(rqs, l[1..], pos, z);
      i := i + 1;
    }
  }

  lemma LowestLeast(rqs: map<nat, Rq>, l: seq<nat>, q: seq<nat>, pos: nat, i: nat)
    requires Known(rqs, l) && Ascending(rqs, l) && forall x :: x in q <==> x in l
    requires i < |l| && pos < rqs[l[i]].pos && forall j :: 0 <= j < i ==> rqs[l[j]].pos <= pos
    ensures Least(rqs, q, pos, l[i])
  {
    forall w | w in q && w in rqs && pos < rqs[w].pos && w != l[i]
      ensures rqs[l[i]].pos < rqs[w].pos
    {
      var j :| 0 <= j < |l| && l[j] == w;
      assert i < j;
    }
  }

  lemma LeastExists(s: Dd, t: Tuning, clock: nat, d: Dir, pos: nat, z: nat)
    requires Inv(s, t, clock) && z in Higher(s, d, pos)
    ensures var y := LeastAbove(s.rqs, s.fifo.Get(d), pos);
            y.Some? && Least(s.rqs, s.fifo.Get(d), pos, y.value)
  {
    Trees(s, t, {}, {}, clock, d);
    hide Mid, Distinct, Least;
    var l := s.sort.Get(d);
    assert Known(s.rqs, l) && Ascending(s.rqs, l) && forall x :: x in s.fifo.Get(d) <==> x in l;
    hide Ascending, Homed;
    var i := LowestOf(s.rqs, l, pos, z);
    LowestLeast(s.rqs, l, s.fifo.Get(d), pos, i);
  }

  /** A call in a batch takes the lowest. */
  lemma ClimbStep(s: Dd, t: Tuning, clock: nat, e: Event, k: Track, d: Dir, pos: nat)
    requires Inv(s, t, clock) && Agrees(s, k) && clock <= e.now && e.Call? && k.sent < t.fifoBatch
    requires k.upcoming == LeastAbove(s.rqs, s.fifo.Get(d), pos) && Higher(s, d, pos) != {}
    ensures k.upcoming.Some? && Least(s.rqs, s.fifo.Get(d), pos, k.upcoming.value)
    ensures var s', y := Step(s, t, clock, e), k.upcoming.value;
            && s'.head == s.head + [y] && s'.rqs == s.rqs && s'.rqs[y].dir == d
            && (forall x :: x in s'.head ==> x in s'.rqs)
            && (forall x :: x in s'.fifo.Get(d) <==> x in s.fifo.Get(d) && x != y)
            && var k' := Track1(s, t, e, s', k);
               Agrees(s', k') && k'.sent == k.sent + 1
               && k'.upcoming == LeastAbove(s'.rqs, s'.fifo.Get(d), s'.rqs[y].pos)
  {
    var z :| z in Higher(s, d, pos);
    hide Inv, Step, Choose, LeastAbove, Higher;
    LeastExists(s, t, clock, d, pos, z);
    StepTracked(s, t, clock, e, k);
    KnownBoth(s, t, clock);
    ChoiceRight(s, t, clock, e.now, k);
    CallMoves(s, t, clock, e.now);
    QueuedDir(s, t, clock, d, k.upcoming.value);
    hide Agrees, Side, Least;
  }

  lemma HigherStep(s: Dd, s': Dd, d: Dir, pos: nat, y: nat)
    requires Least(s.rqs, s.fifo.Get(d), pos, y) && s'.rqs == s.rqs
    requires forall x :: x in s'.fifo.Get(d) <==> x in s.fifo.Get(d) && x != y
    ensures forall z :: Beyond(s', d, s.rqs[y].pos, z) <==> Beyond(s, d, pos, z) && z != y
    ensures Higher(s', d, s.rqs[y].pos) == Higher(s, d, pos) - {y} && y in Higher(s, d, pos)
  {
  }

  lemma LadderStep(s: Dd, s': Dd, d: Dir, pos: nat, y: nat, l: seq<nat>)
    requires Least(s.rqs, s.fifo.Get(d), pos, y) && s'.rqs == s.rqs
    requires forall z :: Beyond(s', d, s.rqs[y].pos, z) <==> Beyond(s, d, pos, z) && z != y
    requires Ladder(s', d, s.rqs[y].pos, l)
    ensures Ladder(s, d, pos, [y] + l)
  {
    var all := [y] + l;
    assert forall i :: 0 <= i < |all| ==> all[i] == if i == 0 then y else l[i - 1];
    assert Beyond(s, d, pos, y);
    forall i | 0 <= i < |l|
      ensures Beyond(s, d, pos, l[i]) && s.rqs[y].pos < s.rqs[l[i]].pos
    {
      assert Beyond(s', d, s.rqs[y].pos, l[i]);
    }
    hide Beyond, Least;
    forall z | Beyond(s, d, pos, z) && z !in all
      ensures s.rqs[all[|all| - 1]].pos < s.rqs[z].pos
    {
      assert z != all[0] && z !in l;
      LastBelow(s, s', d, pos, y, l, z);
    }
  }

  lemma LastBelow(s: Dd, s': Dd, d: Dir, pos: nat, y: nat, l: seq<nat>, z: nat)
    requires y in s.rqs && s'.rqs == s.rqs && Ladder(s', d, s.rqs[y].pos, l)
    requires Beyond(s', d, s.rqs[y].pos, z) && z !in l
    ensures z in s.rqs && var all := [y] + l; all[|all| - 1] in s.rqs && s.rqs[all[|all| - 1]].pos < s.rqs[z].pos
  {
    if l != [] {
      assert Beyond(s', d, s.rqs[y].pos, l[|l| - 1]);
    }
  }

  lemma LadderNone(s: Dd, d: Dir, pos: nat)
    ensures Ladder(s, d, pos, [])
  {
  }

  /** Calls that follow each other within a batch dispatch the requests above the
      last one, lowest sector first. */
  lemma {:induction false} Climb(s: Dd, t: Tuning, clock: nat, cs: seq<Event>, k: Track, d: Dir, pos: nat)
    requires Inv(s, t, clock) && Agrees(s, k) && Legal(s, t, clock, cs) && forall i :: 0 <= i < |cs| ==> cs[i].Call?
    requires k.upcoming == LeastAbove(s.rqs, s.fifo.Get(d), pos)
    requires k.sent + |cs| <= t.fifoBatch && |cs| <= |Higher(s, d, pos)|
    ensures var r := Run(s, t, clock, cs);
            && |r.head| == |s.head| + |cs| && s.head == r.head[..|s.head|] && Ladder(s, d, pos, r.head[|s.head|..])
    decreases |cs|
  {
    hide Inv, Step, Enabled, LeastAbove, Least, Agrees, Track1, Ladder, Higher;
    var r := Run(s, t, clock, cs);
    if cs == [] {
      LadderNone(s, d, pos);
      assert r.head[|s.head|..] == [];
    } else {
      StepOk(s, t, clock, cs[0]);
      ClimbStep(s, t, clock, cs[0], k, d, pos);
      var s', y := Step(s, t, clock, cs[0]), k.upcoming.value;
      HigherStep(s, s', d, pos, y);
      Climb(s', t, cs[0].now, cs[1..], Track1(s, t, cs[0], s', k), d, s.rqs[y].pos);
      LadderStep(s, s', d, pos, y, r.head[|s'.head|..]);
      Rest(r.head, s.head, y);
    }
  }

  lemma Rest(l: seq<nat>, a: seq<nat>, y: nat)
    requires |a| < |l| && l[..|a| + 1] == a + [y]
    ensures l[|a|..] == [y] + l[|a| + 1..] && l[..|a|] == a
  {
    assert l[|a|] == l[..|a| + 1][|a|] == y;
    assert l[..|a|] == l[..|a| + 1][..|a|];
  }

  /** So after any run that has just dispatched `x`, as many calls as the batch may
      still take dispatch the queued requests of its direction above it, in the
      order of their sectors. */
  lemma BatchAscends(t: Tuning, es: seq<Event>, cs: seq<Event>, x: nat)
    requires LegalRun(t, es)
    requires var s, k := Reached(t, es), TrackOf(t, es);
             && x in s.rqs && k.upcoming == Above(s, x) && Legal(s, t, LastTime(0, es), cs)
             && (forall i :: 0 <= i < |cs| ==> cs[i].Call?)
             && k.sent + |cs| <= t.fifoBatch && |cs| <= |Higher(s, s.rqs[x].dir, s.rqs[x].pos)|
    ensures var s := Reached(t, es);
            var r := Run(s, t, LastTime(0, es), cs);
            && |r.head| == |s.head| + |cs| && s.head == r.head[..|s.head|]
            && Ladder(s, s.rqs[x].dir, s.rqs[x].pos, r.head[|s.head|..])
  {
    hide Inv, Run, TrackOf, Reached, LegalRun, Legal, Agrees, Ladder, Higher, LeastAbove;
    ReachedAgrees(t, es);
    var s := Reached(t, es);
    Climb(s, t, LastTime(0, es), cs, TrackOf(t, es), s.rqs[x].dir, s.rqs[x].pos);
  }
}

/** The deadline I/O scheduler (block/deadline-iosched.c) with the part of the
    elevator core it works through (block/elevator.c: the sorted counter, the
    dispatch queue and forced draining).

    A sector tree is the sequence of its requests in sector order.
 */
module Deadline {
  import opened Lists

  datatype Rq = Rq(dir: Dir, pos: nat, fifoTime: nat)

  /** The tunables; `writesStarved` is not negative. */
  datatype Tuning = Tuning(expire: Two<nat>, fifoBatch: nat, writesStarved: nat)

  /** deadline_data; `head` is the dispatch queue and `nrSorted` the count of
      requests the elevator holds. `rqs` records every request ever added and
      `merged` those that became part of another one. */
  datatype Dd = Dd(rqs: map<nat, Rq>, sort: Two<seq<nat>>, fifo: Two<seq<nat>>, next: Two<Option<nat>>,
                   batching: nat, starved: nat, head: seq<nat>, merged: set<nat>, nrSorted: int)

  /** A queue nothing was added to yet. */
  const EMPTY := Dd(map[], Two([], []), Two([], []), Two(None, None), 0, 0, [], {}, 0)

  // --------------------------------------------------------------- operations

  predicate Known(rqs: map<nat, Rq>, l: seq<nat>) {
    forall x :: x in l ==> x in rqs
  }

  predicate Homed(rqs: map<nat, Rq>, l: seq<nat>, d: Dir) {
    forall x :: x in l ==> x in rqs && rqs[x].dir == d
  }

  /** rb_next: the element after `id`. */
  function Latter(l: seq<nat>, id: nat): Option<nat> {
    if l == [] then None
    else if l[0] == id then (if |l| > 1 then Some(l[1]) else None)
    else Latter(l[1..], id)
  }

  /** The element of a tree that starts at sector `pos`, if any. */
  function Alias(rqs: map<nat, Rq>, l: seq<nat>, pos: nat): (r: Option<nat>)
    requires Known(rqs, l)
    ensures r.Some? ==> r.value in l && rqs[r.value].pos == pos
    ensures r.None? ==> forall x :: x in l ==> rqs[x].pos != pos
  {
    if l == [] then None else if rqs[l[0]].pos == pos then Some(l[0]) else Alias(rqs, l[1..], pos)
  }

  /** A tree with `id` put in sector order. */
  function Insert(rqs: map<nat, Rq>, l: seq<nat>, id: nat): seq<nat>
    requires id in rqs && Known(rqs, l)
  {
    if l == [] || rqs[id].pos < rqs[l[0]].pos then [id] + l else [l[0]] + Insert(rqs, l[1..], id)
  }

  /** `id` leaves the tree and the FIFO. */
  function Drop(s: Dd, d: Dir, id: nat): Dd {
    s.(sort := s.sort.Set(d, Without(s.sort.Get(d), id)), fifo := s.fifo.Set(d, Without(s.fifo.Get(d), id)))
  }

  /** deadline_move_request with elv_dispatch_add_tail. */
  function Move(s: Dd, id: nat): Dd
    requires id in s.rqs
  {
    var d := s.rqs[id].dir;
    Drop(s, d, id).(next := Two(None, None).Set(d, Latter(s.sort.Get(d), id)),
                    head := s.head + [id], nrSorted := s.nrSorted - 1)
  }

  /** A request queued at the sector of `id` is dispatched to make room. */
  function Cleared(s: Dd, id: nat): (r: Dd)
    requires id in s.rqs && Homed(s.rqs, s.sort.Get(s.rqs[id].dir), s.rqs[id].dir)
    ensures r.rqs == s.rqs && Homed(s.rqs, r.sort.Get(s.rqs[id].dir), s.rqs[id].dir)
  {
    var d := s.rqs[id].dir;
    match Alias(s.rqs, s.sort.Get(d), s.rqs[id].pos)
    case None => s
    case Some(alias) =>
      HomedWithout(s.rqs, s.sort.Get(d), d, alias);
      Move(s, alias)
  }

  /** deadline_add_rq_rb. */
  function AddRb(s: Dd, id: nat): Dd
    requires id in s.rqs && Homed(s.rqs, s.sort.Get(s.rqs[id].dir), s.rqs[id].dir)
  {
    var d := s.rqs[id].dir;
    var s1 := Cleared(s, id);
    s1.(sort := s1.sort.Set(d, Insert(s.rqs, s1.sort.Get(d), id)))
  }

  lemma {:induction false} HomedWithout(rqs: map<nat, Rq>, l: seq<nat>, d: Dir, id: nat)
    requires Homed(rqs, l, d)
    ensures Homed(rqs, Without(l, id), d)
  {
    if l != [] {
      HomedWithout(rqs, l[1..], d, id);
    }
  }

  /** __elv_add_request for a sorted insertion, with deadline_add_request. */
  function AddRequest(s: Dd, t: Tuning, id: nat, d: Dir, pos: nat, now: nat): Dd
    requires Homed(s.rqs, s.sort.Get(d), d)
  {
    var rq := Rq(d, pos, now + t.expire.Get(d));
    var s1 := AddRb(s.(rqs := s.rqs[id := rq], nrSorted := s.nrSorted + 1), id);
    s1.(fifo := s1.fifo.Set(d, s1.fifo.Get(d) + [id]))
  }

  /** `id` leaves the tree and now starts at `pos`. */
  function Lifted(s: Dd, id: nat, pos: nat): Dd
    requires id in s.rqs
  {
    var d := s.rqs[id].dir;
    s.(sort := s.sort.Set(d, Without(s.sort.Get(d), id)), rqs := s.rqs[id := s.rqs[id].(pos := pos)])
  }

  /** A bio was merged to the front of `id`, which now starts at `pos`:
      deadline_merged_request. */
  function FrontMerged(s: Dd, id: nat, pos: nat): Dd
    requires id in s.rqs && Homed(s.rqs, s.sort.Get(s.rqs[id].dir), s.rqs[id].dir)
  {
    var d := s.rqs[id].dir;
    HomedWithout(s.rqs, s.sort.Get(d), d, id);
    AddRb(Lifted(s, id, pos), id)
  }

  function InsertAfter(l: seq<nat>, x: nat, y: nat): seq<nat> {
    if l == [] then [] else if l[0] == y then [y, x] + l[1..] else [l[0]] + InsertAfter(l[1..], x, y)
  }

  /** `gone` was merged into `id`: deadline_merged_requests and elv_merge_requests. */
  function Merged(s: Dd, id: nat, gone: nat): Dd
    requires id in s.rqs && gone in s.rqs
  {
    var d := s.rqs[id].dir;
    var earlier := s.rqs[gone].fifoTime < s.rqs[id].fifoTime;
    var s1 := if !earlier then s
              else s.(fifo := s.fifo.Set(d, InsertAfter(Without(s.fifo.Get(d), id), id, gone)),
                      rqs := s.rqs[id := s.rqs[id].(fifoTime := s.rqs[gone].fifoTime)]);
    var next := if s.next.Get(d) == Some(gone) then Latter(s.sort.Get(d), gone) else s.next.Get(d);
    Drop(s1, d, gone).(next := s.next.Set(d, next), merged := s.merged + {gone}, nrSorted := s.nrSorted - 1)
  }

  /** The choice of deadline_dispatch_requests: the request to move, and the
      batch and starvation counters afterwards. */
  datatype Choice = Nothing | Pick(id: nat, batching: nat, starved: nat)

  /** dispatch_find_request: the oldest request of `d` if it has expired or there
      is nothing to continue with. */
  function Find(s: Dd, d: Dir, starved: nat, now: nat): Choice
    requires s.fifo.Get(d) != [] && Known(s.rqs, s.fifo.Get(d))
  {
    var oldest := s.fifo.Get(d)[0];
    if s.rqs[oldest].fifoTime < now || s.next.Get(d).None? then Pick(oldest, 1, starved)
    else Pick(s.next.Get(d).value, 1, starved)
  }

  function Choose(s: Dd, t: Tuning, now: nat): Choice
    requires Known(s.rqs, s.fifo.read) && Known(s.rqs, s.fifo.write)
  {
    var next := if s.next.write.Some? then s.next.write else s.next.read;
    if next.Some? && s.batching < t.fifoBatch then Pick(next.value, s.batching + 1, s.starved)
    else if s.fifo.read != [] && (s.fifo.write == [] || s.starved < t.writesStarved) then
      Find(s, Read, s.starved + (if s.fifo.write != [] then 1 else 0), now)
    else if s.fifo.write != [] then Find(s, Write, 0, now)
    else Nothing
  }

  /** deadline_dispatch_requests. */
  function Dispatch(s: Dd, t: Tuning, now: nat): (Dd, bool)
    requires Known(s.rqs, s.fifo.read) && Known(s.rqs, s.fifo.write)
  {
    match Choose(s, t, now)
    case Nothing => (s, false)
    case Pick(id, batching, starved) =>
      if id in s.rqs then (Move(s.(batching := batching, starved := starved), id), true) else (s, false)
  }

  // ---------------------------------------------------------------- invariants

  function Other(d: Dir): Dir {
    if d.Read? then Write else Read
  }

  /** Strictly ascending start sectors. */
  predicate Ascending(rqs: map<nat, Rq>, l: seq<nat>)
    requires Known(rqs, l)
  {
    forall i, j :: 0 <= i < j < |l| ==> rqs[l[i]].pos < rqs[l[j]].pos
  }

  predicate ByExpiry(rqs: map<nat, Rq>, l: seq<nat>)
    requires Known(rqs, l)
  {
    forall i, j :: 0 <= i < j < |l| ==> rqs[l[i]].fifoTime <= rqs[l[j]].fifoTime
  }

  ghost predicate TreeOk(rqs: map<nat, Rq>, sort: seq<nat>, d: Dir) {
    Homed(rqs, sort, d) && Distinct(sort) && Ascending(rqs, sort)
  }

  ghost predicate FifoOk(rqs: map<nat, Rq>, fifo: seq<nat>, d: Dir, limit: nat) {
    && Homed(rqs, fifo, d) && Distinct(fifo) && ByExpiry(rqs, fifo)
    && forall x :: x in fifo ==> rqs[x].fifoTime <= limit
  }

  /** The tree and the FIFO hold the same requests, apart from `out`, which may
      be on the FIFO only. */
  ghost predicate Same(sort: seq<nat>, fifo: seq<nat>, out: set<nat>) {
    forall x :: x in sort <==> x in fifo && x !in out
  }

  ghost predicate DirOk(s: Dd, d: Dir, out: set<nat>, limit: nat) {
    && TreeOk(s.rqs, s.sort.Get(d), d) && FifoOk(s.rqs, s.fifo.Get(d), d, limit)
    && Same(s.sort.Get(d), s.fifo.Get(d), out)
    && (s.next.Get(d).Some? ==> s.next.Get(d).value in s.fifo.Get(d))
  }

  /** No request is in two places: a FIFO, the dispatch queue, another request. */
  ghost predicate HeadOk(rqs: map<nat, Rq>, head: seq<nat>, fifo: Two<seq<nat>>, merged: set<nat>) {
    && Distinct(head) && Known(rqs, head) && merged <= rqs.Keys
    && (forall x :: x in head || x in merged ==> x !in fifo.read && x !in fifo.write)
    && (forall x :: x in head ==> x !in merged)
  }

  /** No request is lost, apart from `loose` ones on no list yet. */
  ghost predicate AllThere(s: Dd, loose: set<nat>) {
    forall x :: x in s.rqs && x !in loose ==> x in s.fifo.read || x in s.fifo.write || x in s.head || x in s.merged
  }

  /** `loose` requests are counted but on no list yet. */
  ghost predicate Mid(s: Dd, t: Tuning, out: set<nat>, loose: set<nat>, clock: nat) {
    && DirOk(s, Read, out, clock + t.expire.read) && DirOk(s, Write, out, clock + t.expire.write)
    && HeadOk(s.rqs, s.head, s.fifo, s.merged) && s.nrSorted == |s.fifo.read| + |s.fifo.write| + |loose|
    && AllThere(s, loose)
    && (s.next.read.None? || s.next.write.None?)
  }

  /** What every operation keeps. */
  ghost predicate Inv(s: Dd, t: Tuning, clock: nat) {
    Mid(s, t, {}, {}, clock)
  }

  // ------------------------------------------------------------ list arguments

  lemma {:induction false} LatterAt(l: seq<nat>, i: nat)
    requires Distinct(l) && i < |l|
    ensures Latter(l, l[i]) == if i + 1 < |l| then Some(l[i + 1]) else None
  {
    if i > 0 {
      LatterAt(l[1..], i - 1);
    }
  }

  lemma LatterIn(l: seq<nat>, id: nat)
    requires Distinct(l) && id in l
    ensures Latter(l, id).Some? ==> Latter(l, id).value in l && Latter(l, id).value != id
  {
    var i :| 0 <= i < |l| && l[i] == id;
    LatterAt(l, i);
  }

  lemma {:induction false} InsertAt(rqs: map<nat, Rq>, l: seq<nat>, id: nat) returns (k: nat)
    requires id in rqs && Known(rqs, l)
    ensures k <= |l| && Insert(rqs, l, id) == l[..k] + [id] + l[k..]
    ensures forall i :: 0 <= i < k ==> rqs[l[i]].pos <= rqs[id].pos
    ensures k < |l| ==> rqs[id].pos < rqs[l[k]].pos
  {
    if l == [] || rqs[id].pos < rqs[l[0]].pos {
      k := 0;
    } else {
      k := InsertAt(rqs, l[1..], id);
      assert [l[0]] + (l[1..][..k] + [id] + l[1..][k..]) == l[..k + 1] + [id] + l[k + 1..];
      k := k + 1;
    }
  }

  lemma Wedged(l: seq<nat>, k: nat, id: nat)
    requires k <= |l|
    ensures var r := l[..k] + [id] + l[k..]; forall x :: x in r <==> x in l || x == id
  {
    var r := l[..k] + [id] + l[k..];
    forall x | x in l
      ensures x in r
    {
      var i :| 0 <= i < |l| && l[i] == x;
      assert r[if i < k then i else i + 1] == x;
    }
    assert r[k] == id;
  }

  lemma WedgedAscends(rqs: map<nat, Rq>, l: seq<nat>, k: nat, id: nat, r: seq<nat>)
    requires id in rqs && Known(rqs, l) && Ascending(rqs, l) && k <= |l| && r == l[..k] + [id] + l[k..]
    requires forall i :: 0 <= i < k ==> rqs[l[i]].pos < rqs[id].pos
    requires k < |l| ==> rqs[id].pos < rqs[l[k]].pos
    ensures Known(rqs, r) && Ascending(rqs, r) && Distinct(r)
  {
    hide Distinct;
    forall i | 0 <= i < |r|
      ensures r[i] in rqs
    {
      assert r[i] == if i < k then l[i] else if i == k then id else l[i - 1];
    }
    forall i, j | 0 <= i < j < |r|
      ensures rqs[r[i]].pos < rqs[r[j]].pos
    {
      WedgedPair(rqs, l, k, id, r, i, j);
    }
    AscendingDistinct(rqs, r);
  }

  lemma WedgedPair(rqs: map<nat, Rq>, l: seq<nat>, k: nat, id: nat, r: seq<nat>, i: nat, j: nat)
    requires id in rqs && Known(rqs, l) && Ascending(rqs, l) && k <= |l| && r == l[..k] + [id] + l[k..]
    requires forall x :: 0 <= x < k ==> rqs[l[x]].pos < rqs[id].pos
    requires k < |l| ==> rqs[id].pos < rqs[l[k]].pos
    requires i < j < |r|
    ensures r[i] in rqs && r[j] in rqs && rqs[r[i]].pos < rqs[r[j]].pos
  {
    assert r[i] == if i < k then l[i] else if i == k then id else l[i - 1];
    assert r[j] == if j < k then l[j] else if j == k then id else l[j - 1];
    if i == k && j > k + 1 {
      assert rqs[l[k]].pos < rqs[l[j - 1]].pos;
    }
  }

  lemma AscendingDistinct(rqs: map<nat, Rq>, l: seq<nat>)
    requires Known(rqs, l) && Ascending(rqs, l)
    ensures Distinct(l)
  {
    forall i, j | 0 <= i < j < |l|
      ensures l[i] != l[j]
    {
      assert rqs[l[i]].pos < rqs[l[j]].pos;
    }
  }

  lemma InsertTree(rqs: map<nat, Rq>, l: seq<nat>, d: Dir, id: nat)
    requires id in rqs && rqs[id].dir == d && TreeOk(rqs, l, d) && forall x :: x in l ==> rqs[x].pos != rqs[id].pos
    ensures TreeOk(rqs, Insert(rqs, l, id), d)
    ensures forall x :: x in Insert(rqs, l, id) <==> x in l || x == id
  {
    var k := InsertAt(rqs, l, id);
    Wedged(l, k, id);
    var r := Insert(rqs, l, id);
    hide Insert;
    assert forall i :: 0 <= i < k ==> l[i] in l;
    WedgedAscends(rqs, l, k, id, r);
  }

  /** Taking an element out keeps the order of the others. */
  lemma WithoutKeepsOrder(l: seq<nat>, id: nat) returns (at: nat)
    requires Distinct(l)
    ensures var r := Without(l, id);
            && Distinct(r) && (forall x :: x in r <==> x in l && x != id)
            && |r| == |l| - (if id in l then 1 else 0)
            && if id in l then at < |l| && r == l[..at] + l[at + 1..] else r == l
  {
    WithoutMembers(l, id);
    at := 0;
    if id in l {
      at :| 0 <= at < |l| && l[at] == id;
      WithoutAt(l, at);
    }
  }

  lemma TreeWithout(rqs: map<nat, Rq>, l: seq<nat>, d: Dir, id: nat)
    requires TreeOk(rqs, l, d)
    ensures TreeOk(rqs, Without(l, id), d)
    ensures forall x :: x in Without(l, id) <==> x in l && x != id
  {
    var at := WithoutKeepsOrder(l, id);
    hide Without;
  }

  lemma FifoWithout(rqs: map<nat, Rq>, l: seq<nat>, id: nat, d: Dir, limit: nat)
    requires FifoOk(rqs, l, d, limit)
    ensures FifoOk(rqs, Without(l, id), d, limit)
    ensures forall x :: x in Without(l, id) <==> x in l && x != id
    ensures |Without(l, id)| == |l| - if id in l then 1 else 0
  {
    var at := WithoutKeepsOrder(l, id);
    hide Without;
  }

  lemma TreeFrame(rqs: map<nat, Rq>, rqs': map<nat, Rq>, l: seq<nat>, d: Dir)
    requires TreeOk(rqs, l, d)
    requires forall x :: x in l ==> x in rqs' && rqs'[x].pos == rqs[x].pos && rqs'[x].dir == d
    ensures TreeOk(rqs', l, d)
  {
  }

  lemma FifoFrame(rqs: map<nat, Rq>, rqs': map<nat, Rq>, l: seq<nat>, d: Dir, limit: nat)
    requires FifoOk(rqs, l, d, limit)
    requires forall x :: x in l ==> x in rqs' && rqs'[x].fifoTime == rqs[x].fifoTime && rqs'[x].dir == d
    ensures FifoOk(rqs', l, d, limit)
  {
  }

  lemma FifoSnoc(rqs: map<nat, Rq>, l: seq<nat>, id: nat, d: Dir, limit: nat)
    requires FifoOk(rqs, l, d, limit) && id !in l
    requires id in rqs && rqs[id].dir == d && rqs[id].fifoTime == limit
    ensures FifoOk(rqs, l + [id], d, limit)
  {
  }

  // -------------------------------------------------------- every step keeps it

  lemma Later(s: Dd, t: Tuning, clock: nat, now: nat)
    requires Inv(s, t, clock) && clock <= now
    ensures Inv(s, t, now)
  {
  }

  lemma DirWithout(s: Dd, d: Dir, out: set<nat>, limit: nat, id: nat)
    requires DirOk(s, d, out, limit) && id in s.sort.Get(d)
    ensures DirOk(Drop(s, d, id).(next := Two(None, None).Set(d, Latter(s.sort.Get(d), id))), d, out, limit)
  {
    TreeWithout(s.rqs, s.sort.Get(d), d, id);
    FifoWithout(s.rqs, s.fifo.Get(d), id, d, limit);
    LatterIn(s.sort.Get(d), id);
    hide Without, Latter, TreeOk, FifoOk;
  }

  lemma MoveOk(s: Dd, t: Tuning, out: set<nat>, loose: set<nat>, clock: nat, id: nat)
    requires Mid(s, t, out, loose, clock) && id in s.rqs && id in s.sort.Get(s.rqs[id].dir)
    ensures Mid(Move(s, id), t, out, loose, clock)
  {
    hide Without, Latter, DirOk, HeadOk, AllThere;
    var d, s' := s.rqs[id].dir, Move(s, id);
    var limit := clock + t.expire.Get(d);
    assert DirOk(s, d, out, limit) && DirOk(s, Other(d), out, clock + t.expire.Get(Other(d)));
    OnOneFifo(s, d, out, limit, clock + t.expire.Get(Other(d)), id);
    DirWithout(s, d, out, limit, id);
    DirFrame(Drop(s, d, id).(next := Two(None, None).Set(d, Latter(s.sort.Get(d), id))), s', d, out, limit);
    DirFrame(s, s', Other(d), out, clock + t.expire.Get(Other(d)));
    WithoutMembers(s.fifo.Get(d), id);
    HeadGrows(s, id);
    MovedThere(s, id, loose);
  }

  /** A request on a tree is on the FIFO of its direction only, once. */
  lemma OnOneFifo(s: Dd, d: Dir, out: set<nat>, limit: nat, limit': nat, id: nat)
    requires DirOk(s, d, out, limit) && DirOk(s, Other(d), out, limit') && id in s.sort.Get(d)
    ensures id in s.fifo.Get(d) && Distinct(s.fifo.Get(d)) && id !in s.fifo.Get(Other(d))
  {
    hide Ascending, ByExpiry, Distinct;
  }

  lemma MovedThere(s: Dd, id: nat, loose: set<nat>)
    requires AllThere(s, loose) && id in s.rqs && Distinct(s.fifo.Get(s.rqs[id].dir))
    ensures AllThere(Move(s, id), loose)
  {
    hide Without, Latter, Distinct;
    WithoutMembers(s.fifo.Get(s.rqs[id].dir), id);
  }

  lemma HeadGrows(s: Dd, id: nat)
    requires HeadOk(s.rqs, s.head, s.fifo, s.merged) && id in s.rqs
    requires id in s.fifo.Get(s.rqs[id].dir) && Distinct(s.fifo.Get(s.rqs[id].dir))
    requires id !in s.fifo.Get(Other(s.rqs[id].dir))
    ensures HeadOk(s.rqs, s.head + [id], Drop(s, s.rqs[id].dir, id).fifo, s.merged)
  {
    WithoutMembers(s.fifo.Get(s.rqs[id].dir), id);
    DistinctSnoc(s.head, id);
    hide Without, Distinct;
  }

  /** Making room dispatches at most the one request at that sector. */
  lemma ClearedOk(s: Dd, t: Tuning, out: set<nat>, loose: set<nat>, clock: nat, id: nat)
    requires Mid(s, t, out, loose, clock) && id in s.rqs && id !in s.sort.Get(s.rqs[id].dir)
    ensures var d, r := s.rqs[id].dir, Cleared(s, id);
            && Mid(r, t, out, loose, clock) && id !in r.sort.Get(d)
            && (forall x :: x in r.sort.Get(d) ==> s.rqs[x].pos != s.rqs[id].pos)
            && (id in r.fifo.Get(d) <==> id in s.fifo.Get(d))
            && (r == s || exists a :: a in s.sort.Get(d) && s.rqs[a].pos == s.rqs[id].pos && r == Move(s, a))
  {
    var d := s.rqs[id].dir;
    match Alias(s.rqs, s.sort.Get(d), s.rqs[id].pos) {
      case None =>
      case Some(a) =>
        MoveOk(s, t, out, loose, clock, a);
        TreeWithout(s.rqs, s.sort.Get(d), d, a);
        WithoutMembers(s.fifo.Get(d), a);
        OnlyAt(s.rqs, s.sort.Get(d), d, a);
        hide Mid, Without, Latter, Alias;
    }
  }

  lemma OnlyAt(rqs: map<nat, Rq>, l: seq<nat>, d: Dir, a: nat)
    requires TreeOk(rqs, l, d) && a in l
    ensures forall x :: x in l && x != a ==> rqs[x].pos != rqs[a].pos
  {
    forall x | x in l && x != a
      ensures rqs[x].pos != rqs[a].pos
    {
      var i :| 0 <= i < |l| && l[i] == x;
      var j :| 0 <= j < |l| && l[j] == a;
      assert i < j || j < i;
    }
  }

  /** Registering a new request changes nothing that is already queued. */
  lemma RegisterOk(s: Dd, t: Tuning, id: nat, rq: Rq, clock: nat)
    requires Inv(s, t, clock) && id !in s.rqs
    ensures Mid(s.(rqs := s.rqs[id := rq], nrSorted := s.nrSorted + 1), t, {}, {id}, clock)
    ensures id !in s.sort.Get(rq.dir) && id !in s.fifo.Get(Other(rq.dir)) && id !in s.head && id !in s.merged
    ensures Homed(s.rqs, s.sort.Get(rq.dir), rq.dir)
  {
    var rqs' := s.rqs[id := rq];
    TreeFrame(s.rqs, rqs', s.sort.read, Read);
    TreeFrame(s.rqs, rqs', s.sort.write, Write);
    FifoFrame(s.rqs, rqs', s.fifo.read, Read, clock + t.expire.read);
    FifoFrame(s.rqs, rqs', s.fifo.write, Write, clock + t.expire.write);
  }

  lemma DirFrame(s: Dd, s': Dd, d: Dir, out: set<nat>, limit: nat)
    requires DirOk(s, d, out, limit) && s'.rqs == s.rqs
    requires s'.sort.Get(d) == s.sort.Get(d) && s'.fifo.Get(d) == s.fifo.Get(d)
    requires s'.next.Get(d) == s.next.Get(d) || s'.next.Get(d).None?
    ensures DirOk(s', d, out, limit)
  {
  }

  lemma DirKnown(s: Dd, d: Dir, out: set<nat>, limit: nat)
    requires DirOk(s, d, out, limit)
    ensures Known(s.rqs, s.sort.Get(d)) && Known(s.rqs, s.fifo.Get(d))
  {
  }

  lemma DirAdded(s: Dd, d: Dir, limit: nat, id: nat)
    requires DirOk(s, d, {}, limit) && id in s.rqs && s.rqs[id] == Rq(d, s.rqs[id].pos, limit)
    requires id !in s.sort.Get(d) && forall x :: x in s.sort.Get(d) ==> s.rqs[x].pos != s.rqs[id].pos
    ensures DirOk(s.(sort := s.sort.Set(d, Insert(s.rqs, s.sort.Get(d), id)),
                     fifo := s.fifo.Set(d, s.fifo.Get(d) + [id])), d, {}, limit)
  {
    InsertTree(s.rqs, s.sort.Get(d), d, id);
    FifoSnoc(s.rqs, s.fifo.Get(d), id, d, limit);
    hide Insert, TreeOk, FifoOk;
  }

  lemma DirPlaced(s: Dd, d: Dir, limit: nat, id: nat)
    requires DirOk(s, d, {id}, limit) && id in s.rqs && s.rqs[id].dir == d && id in s.fifo.Get(d)
    requires forall x :: x in s.sort.Get(d) ==> s.rqs[x].pos != s.rqs[id].pos
    ensures DirOk(s.(sort := s.sort.Set(d, Insert(s.rqs, s.sort.Get(d), id))), d, {}, limit)
  {
    InsertTree(s.rqs, s.sort.Get(d), d, id);
    hide Insert, TreeOk, FifoOk;
  }

  lemma AddedOk(s: Dd, t: Tuning, id: nat, d: Dir, now: nat)
    requires Mid(s, t, {}, {id}, now) && id in s.rqs && s.rqs[id] == Rq(d, s.rqs[id].pos, now + t.expire.Get(d))
    requires id !in s.sort.Get(d) && id !in s.fifo.Get(Other(d)) && id !in s.head && id !in s.merged
    requires forall x :: x in s.sort.Get(d) ==> s.rqs[x].pos != s.rqs[id].pos
    ensures Inv(s.(sort := s.sort.Set(d, Insert(s.rqs, s.sort.Get(d), id)),
                   fifo := s.fifo.Set(d, s.fifo.Get(d) + [id])), t, now)
  {
    hide Insert, DirOk, HeadOk, AllThere;
    DirKnown(s, d, {}, now + t.expire.Get(d));
    var s' := s.(sort := s.sort.Set(d, Insert(s.rqs, s.sort.Get(d), id)),
                 fifo := s.fifo.Set(d, s.fifo.Get(d) + [id]));
    assert DirOk(s, d, {}, now + t.expire.Get(d)) && DirOk(s, Other(d), {}, now + t.expire.Get(Other(d)));
    DirAdded(s, d, now + t.expire.Get(d), id);
    DirFrame(s, s', Other(d), {}, now + t.expire.Get(Other(d)));
    PlacesAdded(s, id, d);
    SameThere(s.(fifo := s'.fifo), s', {});
  }

  lemma SameThere(s: Dd, s': Dd, loose: set<nat>)
    requires AllThere(s, loose) && s'.rqs == s.rqs && s'.fifo == s.fifo && s'.head == s.head && s'.merged == s.merged
    ensures AllThere(s', loose)
  {
  }

  lemma PlacesAdded(s: Dd, id: nat, d: Dir)
    requires HeadOk(s.rqs, s.head, s.fifo, s.merged) && AllThere(s, {id}) && id !in s.head && id !in s.merged
    ensures var s' := s.(fifo := s.fifo.Set(d, s.fifo.Get(d) + [id]));
            HeadOk(s.rqs, s.head, s'.fifo, s.merged) && AllThere(s', {})
  {
  }

  /** deadline_add_request keeps the invariant. */
  lemma AddOk(s: Dd, t: Tuning, id: nat, d: Dir, pos: nat, clock: nat, now: nat)
    requires Inv(s, t, clock) && clock <= now && id !in s.rqs
    ensures Inv(AddRequest(s, t, id, d, pos, now), t, now)
  {
    hide Cleared, Insert, Mid;
    Later(s, t, clock, now);
    var rq := Rq(d, pos, now + t.expire.Get(d));
    var s0 := s.(rqs := s.rqs[id := rq], nrSorted := s.nrSorted + 1);
    RegisterOk(s, t, id, rq, now);
    ClearedOk(s0, t, {}, {id}, now, id);
    StillAbsent(s0, id);
    AddedOk(Cleared(s0, id), t, id, d, now);
  }

  lemma StillAbsent(s: Dd, id: nat)
    requires id in s.rqs && Homed(s.rqs, s.sort.Get(s.rqs[id].dir), s.rqs[id].dir)
    requires id !in s.sort.Get(s.rqs[id].dir) && id !in s.head && id !in s.fifo.Get(Other(s.rqs[id].dir))
    ensures var r := Cleared(s, id); id !in r.head && id !in r.fifo.Get(Other(s.rqs[id].dir)) && r.merged == s.merged
  {
  }

  lemma PlacedOk(s: Dd, t: Tuning, id: nat, clock: nat)
    requires Mid(s, t, {id}, {}, clock) && id in s.rqs && id in s.fifo.Get(s.rqs[id].dir)
    requires forall x :: x in s.sort.Get(s.rqs[id].dir) ==> x in s.rqs && s.rqs[x].pos != s.rqs[id].pos
    ensures var d := s.rqs[id].dir; Inv(s.(sort := s.sort.Set(d, Insert(s.rqs, s.sort.Get(d), id))), t, clock)
  {
    var d := s.rqs[id].dir;
    var s' := s.(sort := s.sort.Set(d, Insert(s.rqs, s.sort.Get(d), id)));
    DirPlaced(s, d, clock + t.expire.Get(d), id);
    DirFrame(s, s', Other(d), {id}, clock + t.expire.Get(Other(d)));
    NotThere(s', Other(d), id, clock + t.expire.Get(Other(d)));
    hide Insert, DirOk;
  }

  lemma NotThere(s: Dd, d: Dir, id: nat, limit: nat)
    requires DirOk(s, d, {id}, limit) && id in s.rqs && s.rqs[id].dir != d
    ensures DirOk(s, d, {}, limit)
  {
  }

  /** A front merge keeps the invariant. */
  lemma FrontMergedOk(s: Dd, t: Tuning, id: nat, pos: nat, clock: nat)
    requires Inv(s, t, clock) && id in s.rqs && id in s.fifo.Get(s.rqs[id].dir)
    ensures Inv(FrontMerged(s, id, pos), t, clock)
  {
    var d := s.rqs[id].dir;
    var s0 := Lifted(s, id, pos);
    LiftedOk(s, t, id, pos, clock);
    ClearedOk(s0, t, {id}, {}, clock, id);
    hide Cleared, Insert, Mid, Without;
    PlacedOk(Cleared(s0, id), t, id, clock);
  }

  lemma LiftedOk(s: Dd, t: Tuning, id: nat, pos: nat, clock: nat)
    requires Inv(s, t, clock) && id in s.rqs && id in s.fifo.Get(s.rqs[id].dir)
    ensures Mid(Lifted(s, id, pos), t, {id}, {}, clock) && id !in Lifted(s, id, pos).sort.Get(s.rqs[id].dir)
  {
    hide DirOk, HeadOk, AllThere, Without;
    var d := s.rqs[id].dir;
    assert DirOk(s, d, {}, clock + t.expire.Get(d)) && DirOk(s, Other(d), {}, clock + t.expire.Get(Other(d)));
    LiftedHere(s, id, pos, clock + t.expire.Get(d));
    LiftedThere(s, id, pos, clock + t.expire.Get(Other(d)));
    LiftedPlaces(s, id, pos);
  }

  lemma LiftedPlaces(s: Dd, id: nat, pos: nat)
    requires HeadOk(s.rqs, s.head, s.fifo, s.merged) && AllThere(s, {}) && id in s.rqs
    ensures var s' := Lifted(s, id, pos); HeadOk(s'.rqs, s'.head, s'.fifo, s'.merged) && AllThere(s', {})
  {
    hide Without, Distinct;
  }

  lemma LiftedHere(s: Dd, id: nat, pos: nat, limit: nat)
    requires id in s.rqs && DirOk(s, s.rqs[id].dir, {}, limit) && id in s.fifo.Get(s.rqs[id].dir)
    ensures DirOk(Lifted(s, id, pos), s.rqs[id].dir, {id}, limit)
    ensures id !in Lifted(s, id, pos).sort.Get(s.rqs[id].dir)
  {
    var d := s.rqs[id].dir;
    var rqs' := s.rqs[id := s.rqs[id].(pos := pos)];
    TreeWithout(s.rqs, s.sort.Get(d), d, id);
    TreeFrame(s.rqs, rqs', Without(s.sort.Get(d), id), d);
    FifoFrame(s.rqs, rqs', s.fifo.Get(d), d, limit);
    hide TreeOk, FifoOk, Without;
  }

  lemma LiftedThere(s: Dd, id: nat, pos: nat, limit: nat)
    requires id in s.rqs && DirOk(s, Other(s.rqs[id].dir), {}, limit)
    ensures DirOk(Lifted(s, id, pos), Other(s.rqs[id].dir), {id}, limit)
  {
    var e := Other(s.rqs[id].dir);
    var rqs' := s.rqs[id := s.rqs[id].(pos := pos)];
    TreeFrame(s.rqs, rqs', s.sort.Get(e), e);
    FifoFrame(s.rqs, rqs', s.fifo.Get(e), e, limit);
    assert id !in s.fifo.Get(e);
    hide TreeOk, FifoOk, Without;
  }

  lemma {:induction false} InsertAfterAt(l: seq<nat>, x: nat, i: nat)
    requires Distinct(l) && i < |l|
    ensures InsertAfter(l, x, l[i]) == l[..i + 1] + [x] + l[i + 1..]
  {
    if i > 0 {
      InsertAfterAt(l[1..], x, i - 1);
      assert [l[0]] + (l[1..][..i] + [x] + l[1..][i..]) == l[..i + 1] + [x] + l[i + 1..];
    }
  }

  /** list_move behind `l[i]` and then list_del of `l[i]` put `x` in its place. */
  lemma InsertedDistinct(l: seq<nat>, x: nat, i: nat)
    requires Distinct(l) && i <= |l| && x !in l
    ensures Distinct(l[..i] + [x] + l[i..])
  {
    var r := l[..i] + [x] + l[i..];
    assert forall k :: 0 <= k < |r| ==> r[k] == if k < i then l[k] else if k == i then x else l[k - 1];
  }

  lemma TakesPlace(l: seq<nat>, x: nat, i: nat)
    requires Distinct(l) && i < |l| && x !in l
    ensures Without(InsertAfter(l, x, l[i]), l[i]) == l[i := x]
  {
    hide Without, InsertAfter;
    InsertAfterAt(l, x, i);
    var r := l[..i + 1] + [x] + l[i + 1..];
    InsertedDistinct(l, x, i + 1);
    assert r[i] == l[i];
    WithoutAt(r, i);
    hide Distinct;
    assert r[..i] + r[i + 1..] == l[i := x];
  }

  /** Two requests may be merged when both are on the same FIFO. */
  ghost predicate Mergeable(s: Dd, id: nat, gone: nat) {
    && id in s.rqs && gone in s.rqs && id != gone && s.rqs[id].dir == s.rqs[gone].dir
    && id in s.fifo.Get(s.rqs[id].dir) && gone in s.fifo.Get(s.rqs[id].dir)
  }

  /** The FIFO after a merge is the old one without `gone`; where `gone` expires
      first, `id` has moved to its place. */
  lemma MergedFifo(s: Dd, id: nat, gone: nat, limit: nat)
    requires Mergeable(s, id, gone) && FifoOk(s.rqs, s.fifo.Get(s.rqs[id].dir), s.rqs[id].dir, limit)
    ensures var d, s' := s.rqs[id].dir, Merged(s, id, gone);
            && FifoOk(s'.rqs, s'.fifo.Get(d), d, limit)
            && (forall x :: x in s'.fifo.Get(d) <==> x in s.fifo.Get(d) && x != gone)
            && |s'.fifo.Get(d)| == |s.fifo.Get(d)| - 1
  {
    var d := s.rqs[id].dir;
    var l := s.fifo.Get(d);
    if s.rqs[gone].fifoTime < s.rqs[id].fifoTime {
      var w := Without(l, id);
      FifoWithout(s.rqs, l, id, d, limit);
      var i :| 0 <= i < |w| && w[i] == gone;
      TakesPlace(w, id, i);
      PlaceTaken(s.rqs, w, id, i, d, limit);
    } else {
      FifoWithout(s.rqs, l, gone, d, limit);
    }
  }

  lemma PlaceTaken(rqs: map<nat, Rq>, w: seq<nat>, id: nat, i: nat, d: Dir, limit: nat)
    requires FifoOk(rqs, w, d, limit) && i < |w| && id !in w && id in rqs && rqs[id].dir == d
    ensures FifoOk(rqs[id := rqs[id].(fifoTime := rqs[w[i]].fifoTime)], w[i := id], d, limit)
    ensures forall x :: x in w[i := id] <==> x == id || (x in w && x != w[i])
  {
    var rqs' := rqs[id := rqs[id].(fifoTime := rqs[w[i]].fifoTime)];
    var r := w[i := id];
    assert forall k :: 0 <= k < |r| ==>
      r[k] in rqs' && rqs'[r[k]].fifoTime == rqs[w[k]].fifoTime && rqs'[r[k]].dir == d;
    forall x | x in w && x != w[i]
      ensures x in r
    {
      var k :| 0 <= k < |w| && w[k] == x;
      assert r[k] == x;
    }
    assert r[i] == id;
  }

  lemma MergedHere(s: Dd, id: nat, gone: nat, limit: nat)
    requires Mergeable(s, id, gone) && DirOk(s, s.rqs[id].dir, {}, limit)
    ensures DirOk(Merged(s, id, gone), s.rqs[id].dir, {}, limit)
  {
    var d := s.rqs[id].dir;
    MergedFifo(s, id, gone, limit);
    TreeWithout(s.rqs, s.sort.Get(d), d, gone);
    TreeFrame(s.rqs, Merged(s, id, gone).rqs, Without(s.sort.Get(d), gone), d);
    LatterIn(s.sort.Get(d), gone);
    hide TreeOk, FifoOk, Without, Latter, InsertAfter, Distinct;
  }

  lemma MergedThere(s: Dd, id: nat, gone: nat, limit: nat)
    requires Mergeable(s, id, gone) && DirOk(s, Other(s.rqs[id].dir), {}, limit)
    ensures DirOk(Merged(s, id, gone), Other(s.rqs[id].dir), {}, limit)
  {
    var e := Other(s.rqs[id].dir);
    var s' := Merged(s, id, gone);
    TreeFrame(s.rqs, s'.rqs, s.sort.Get(e), e);
    FifoFrame(s.rqs, s'.rqs, s.fifo.Get(e), e, limit);
    hide TreeOk, FifoOk, Without, Latter, InsertAfter;
  }

  /** Merging two queued requests keeps the invariant. */
  lemma MergedOk(s: Dd, t: Tuning, id: nat, gone: nat, clock: nat)
    requires Inv(s, t, clock) && Mergeable(s, id, gone)
    ensures Inv(Merged(s, id, gone), t, clock)
  {
    var d := s.rqs[id].dir;
    MergedRest(s, t, id, gone, clock);
    hide DirOk, FifoOk, HeadOk, AllThere, Merged, Same;
    MergedHere(s, id, gone, clock + t.expire.Get(d));
    MergedThere(s, id, gone, clock + t.expire.Get(Other(d)));
  }

  /** The parts of the invariant that span both directions. */
  lemma MergedRest(s: Dd, t: Tuning, id: nat, gone: nat, clock: nat)
    requires Inv(s, t, clock) && Mergeable(s, id, gone)
    ensures var s' := Merged(s, id, gone);
            && HeadOk(s'.rqs, s'.head, s'.fifo, s'.merged) && AllThere(s', {})
            && s'.nrSorted == |s'.fifo.read| + |s'.fifo.write| && (s'.next.read.None? || s'.next.write.None?)
  {
    var d := s.rqs[id].dir;
    Apart(s, t, clock, gone);
    hide DirOk, FifoOk, HeadOk, AllThere, Merged, Same;
    MergedFifo(s, id, gone, clock + t.expire.Get(d));
    MergedShape(s, id, gone);
    PlacesMerged(s, Merged(s, id, gone), gone, d);
  }

  lemma Apart(s: Dd, t: Tuning, clock: nat, id: nat)
    requires Inv(s, t, clock) && id in s.rqs && id in s.fifo.Get(s.rqs[id].dir)
    ensures id !in s.fifo.Get(Other(s.rqs[id].dir))
    ensures FifoOk(s.rqs, s.fifo.Get(s.rqs[id].dir), s.rqs[id].dir, clock + t.expire.Get(s.rqs[id].dir))
  {
  }

  lemma MergedShape(s: Dd, id: nat, gone: nat)
    requires Mergeable(s, id, gone)
    ensures var d, s' := s.rqs[id].dir, Merged(s, id, gone);
            && s'.fifo.Get(Other(d)) == s.fifo.Get(Other(d)) && s'.next.Get(Other(d)) == s.next.Get(Other(d))
            && (s.next.Get(d).None? ==> s'.next.Get(d).None?) && s'.nrSorted == s.nrSorted - 1
            && s'.rqs.Keys == s.rqs.Keys && s'.head == s.head && s'.merged == s.merged + {gone}
  {
  }

  lemma PlacesMerged(s: Dd, s': Dd, gone: nat, d: Dir)
    requires HeadOk(s.rqs, s.head, s.fifo, s.merged) && AllThere(s, {})
    requires gone in s.fifo.Get(d) && gone !in s.fifo.Get(Other(d)) && s'.fifo.Get(Other(d)) == s.fifo.Get(Other(d))
    requires forall x :: x in s'.fifo.Get(d) <==> x in s.fifo.Get(d) && x != gone
    requires gone in s.rqs && s'.rqs.Keys == s.rqs.Keys && s'.head == s.head && s'.merged == s.merged + {gone}
    ensures HeadOk(s'.rqs, s'.head, s'.fifo, s'.merged) && AllThere(s', {})
  {
  }

  /** A call picks a queued request exactly when there is one, and it is one of
      the tree of its direction. */
  lemma ChooseOk(s: Dd, t: Tuning, clock: nat, now: nat)
    requires Inv(s, t, clock)
    ensures var c := Choose(s, t, now);
            if c.Pick? then c.id in s.rqs && c.id in s.sort.Get(s.rqs[c.id].dir) && c.id in s.fifo.Get(s.rqs[c.id].dir)
            else s.fifo.read == [] && s.fifo.write == []
  {
  }

  /** deadline_dispatch_requests keeps the invariant and answers whether there
      was anything to dispatch; what it takes goes to the end of the dispatch queue. */
  lemma DispatchOk(s: Dd, t: Tuning, clock: nat, now: nat)
    requires Inv(s, t, clock) && clock <= now
    ensures var (s', sent) := Dispatch(s, t, now);
            && Inv(s', t, now) && sent == (s.fifo.read != [] || s.fifo.write != [])
            && (if sent then s'.nrSorted == s.nrSorted - 1 && |s'.head| == |s.head| + 1 && s.head <= s'.head
                else s' == s)
  {
    Later(s, t, clock, now);
    ChooseOk(s, t, clock, now);
    var c := Choose(s, t, now);
    if c.Pick? {
      var s0 := s.(batching := c.batching, starved := c.starved);
      hide Choose, Without, Latter;
      MoveOk(s0, t, {}, {}, now, c.id);
    }
  }

  // ---------------------------------------------------------------------- runs

  /** What happens to a queue: requests arrive, bios and requests are merged, the
      driver asks for work. */
  datatype Event =
    | Arrive(id: nat, dir: Dir, pos: nat, now: nat)
    | MergeFront(id: nat, pos: nat, now: nat)
    | MergeTwo(id: nat, gone: nat, now: nat)
    | Call(now: nat)

  ghost predicate Enabled(s: Dd, e: Event) {
    match e
    case Arrive(id, d, _, _) => id !in s.rqs
    case MergeFront(id, _, _) => id in s.rqs && id in s.fifo.Get(s.rqs[id].dir)
    case MergeTwo(id, gone, _) => Mergeable(s, id, gone)
    case Call(_) => true
  }

  ghost function Step(s: Dd, t: Tuning, clock: nat, e: Event): Dd
    requires Inv(s, t, clock) && Enabled(s, e)
  {
    match e
    case Arrive(id, d, pos, now) => AddRequest(s, t, id, d, pos, now)
    case MergeFront(id, pos, _) => FrontMerged(s, id, pos)
    case MergeTwo(id, gone, _) => Merged(s, id, gone)
    case Call(now) => Dispatch(s, t, now).0
  }

  /** Every step keeps the invariant. */
  lemma StepOk(s: Dd, t: Tuning, clock: nat, e: Event)
    requires Inv(s, t, clock) && Enabled(s, e) && clock <= e.now
    ensures Inv(Step(s, t, clock, e), t, e.now)
  {
    match e {
      case Arrive(id, d, pos, now) => AddOk(s, t, id, d, pos, clock, now);
      case MergeFront(id, pos, now) =>
        FrontMergedOk(s, t, id, pos, clock);
        Later(FrontMerged(s, id, pos), t, clock, now);
      case MergeTwo(id, gone, now) => MergedOk(s, t, id, gone, clock); Later(Merged(s, id, gone), t, clock, now);
      case Call(now) => DispatchOk(s, t, clock, now);
    }
  }

  ghost predicate Legal(s: Dd, t: Tuning, clock: nat, es: seq<Event>)
    requires Inv(s, t, clock)
    decreases |es|
  {
    es == [] || (&& Enabled(s, es[0]) && clock <= es[0].now
                 && (StepOk(s, t, clock, es[0]); Legal(Step(s, t, clock, es[0]), t, es[0].now, es[1..])))
  }

  ghost function Run(s: Dd, t: Tuning, clock: nat, es: seq<Event>): Dd
    requires Inv(s, t, clock) && Legal(s, t, clock, es)
    decreases |es|
  {
    if es == [] then s
    else StepOk(s, t, clock, es[0]); Run(Step(s, t, clock, es[0]), t, es[0].now, es[1..])
  }

  function LastTime(clock: nat, es: seq<Event>): nat {
    if es == [] then clock else es[|es| - 1].now
  }

  /** Safety over whole runs. */
  lemma {:induction false} RunInv(s: Dd, t: Tuning, clock: nat, es: seq<Event>)
    requires Inv(s, t, clock) && Legal(s, t, clock, es)
    ensures Inv(Run(s, t, clock, es), t, LastTime(clock, es))
    decreases |es|
  {
    hide Inv, Step, Enabled;
    if es != [] {
      StepOk(s, t, clock, es[0]);
      assert |es| > 1 ==> es[1..][|es| - 2] == es[|es| - 1];
      RunInv(Step(s, t, clock, es[0]), t, es[0].now, es[1..]);
    }
  }

  // --------------------------------------------------------- places in a queue

  function At(l: seq<nat>, x: nat): (i: nat)
    requires x in l
    ensures i < |l| && l[i] == x
  {
    if l[0] == x then 0 else 1 + At(l[1..], x)
  }

  lemma AtIndex(l: seq<nat>, i: nat)
    requires Distinct(l) && i < |l|
    ensures At(l, l[i]) == i
  {
    var j := At(l, l[i]);
    assert j < i || i < j || i == j;
  }

  lemma {:induction false} AtFirst(l: seq<nat>, i: nat)
    requires i < |l|
    ensures At(l, l[i]) <= i
  {
    if l[0] != l[i] {
      AtFirst(l[1..], i - 1);
    }
  }

  /** Nobody moves back when a request leaves, and those behind it move up. */
  lemma AtWithout(l: seq<nat>, y: nat, x: nat)
    requires Distinct(l) && x in l && x != y
    ensures x in Without(l, y)
    ensures At(Without(l, y), x) <= At(l, x) - if y in l && At(l, y) < At(l, x) then 1 else 0
  {
    if y in l {
      var at, i := At(l, y), At(l, x);
      WithoutAt(l, at);
      hide At, Without, Distinct;
      var r := l[..at] + l[at + 1..];
      var j := if i < at then i else i - 1;
      assert r[j] == x;
      AtFirst(r, j);
    } else {
      WithoutAbsent(l, y);
    }
  }

  lemma AtSnoc(l: seq<nat>, y: nat, x: nat)
    requires Distinct(l + [y]) && x in l
    ensures At(l + [y], x) == At(l, x)
  {
    assert (l + [y])[At(l, x)] == x;
    AtIndex(l + [y], At(l, x));
  }

  /** `x` is still queued for `d`, no further back and with no later expiry. */
  ghost predicate NoFurther(s: Dd, s': Dd, d: Dir, x: nat)
    requires x in s.fifo.Get(d) && x in s.rqs
  {
    && x in s'.fifo.Get(d) && x in s'.rqs && At(s'.fifo.Get(d), x) <= At(s.fifo.Get(d), x)
    && s'.rqs[x].fifoTime <= s.rqs[x].fifoTime
  }

  ghost predicate Counters(s: Dd, s': Dd) {
    s'.batching == s.batching && s'.starved == s.starved
  }

  lemma MovePlaces(s: Dd, id: nat, d: Dir, x: nat)
    requires id in s.rqs && x in s.fifo.Get(d) && x in s.rqs && x != id && Distinct(s.fifo.Get(d))
    ensures NoFurther(s, Move(s, id), d, x)
  {
    AtWithout(s.fifo.Get(d), id, x);
    hide Without, Latter, At;
  }

  lemma ClearedPlaces(s: Dd, id: nat, d: Dir, x: nat)
    requires id in s.rqs && Homed(s.rqs, s.sort.Get(s.rqs[id].dir), s.rqs[id].dir)
    requires x in s.fifo.Get(d) && x in s.rqs && Distinct(s.fifo.Get(d))
    ensures Counters(s, Cleared(s, id))
    ensures x in Cleared(s, id).fifo.Get(d) ==> NoFurther(s, Cleared(s, id), d, x)
  {
    match Alias(s.rqs, s.sort.Get(s.rqs[id].dir), s.rqs[id].pos) {
      case None =>
      case Some(a) =>
        if x == a {
          WithoutMembers(s.fifo.Get(d), a);
        } else {
          MovePlaces(s, a, d, x);
        }
        hide Without, Latter, At;
    }
  }

  lemma Basics(s: Dd, t: Tuning, clock: nat, d: Dir)
    requires Inv(s, t, clock)
    ensures Distinct(s.fifo.Get(d)) && Homed(s.rqs, s.fifo.Get(d), d) && Homed(s.rqs, s.sort.Get(d), d)
  {
  }

  lemma QueuedDir(s: Dd, t: Tuning, clock: nat, d: Dir, x: nat)
    requires Inv(s, t, clock) && x in s.fifo.Get(d)
    ensures x in s.rqs && s.rqs[x].dir == d
  {
    Basics(s, t, clock, d);
  }

  /** What a step other than a call does to a queued request. */
  lemma ArrivePlaces(s: Dd, t: Tuning, clock: nat, id: nat, d: Dir, pos: nat, now: nat, e: Dir, x: nat)
    requires Inv(s, t, clock) && clock <= now && id !in s.rqs && x in s.fifo.Get(e)
    requires Homed(s.rqs, s.fifo.Get(e), e) && Homed(s.rqs, s.sort.Get(d), d)
    ensures var s' := AddRequest(s, t, id, d, pos, now);
            Counters(s, s') && (x in s'.fifo.Get(e) ==> NoFurther(s, s', e, x))
  {
    hide Inv, Cleared, Insert, At, Distinct;
    AddOk(s, t, id, d, pos, clock, now);
    Basics(AddRequest(s, t, id, d, pos, now), t, now, e);
    Basics(s, t, clock, e);
    var s0 := s.(rqs := s.rqs[id := Rq(d, pos, now + t.expire.Get(d))], nrSorted := s.nrSorted + 1);
    ClearedPlaces(s0, id, e, x);
    var s1 := Cleared(s0, id);
    if x in s1.fifo.Get(e) && e == d {
      AtSnoc(s1.fifo.Get(d), id, x);
    }
  }

  lemma FrontPlaces(s: Dd, t: Tuning, clock: nat, id: nat, pos: nat, e: Dir, x: nat)
    requires Inv(s, t, clock) && id in s.rqs && id in s.fifo.Get(s.rqs[id].dir) && x in s.fifo.Get(e)
    ensures var s' := FrontMerged(s, id, pos);
            Counters(s, s') && (x in s'.fifo.Get(e) ==> NoFurther(s, s', e, x))
  {
    LiftedOk(s, t, id, pos, clock);
    ClearedPlaces(Lifted(s, id, pos), id, e, x);
    hide Cleared, Insert, At;
  }

  lemma MergedPlaces(s: Dd, t: Tuning, clock: nat, id: nat, gone: nat, e: Dir, x: nat)
    requires Inv(s, t, clock) && Mergeable(s, id, gone) && x in s.fifo.Get(e)
    ensures var s' := Merged(s, id, gone);
            Counters(s, s') && (x in s'.fifo.Get(e) ==> NoFurther(s, s', e, x))
  {
    hide DirOk, HeadOk, AllThere, Without, InsertAfter, Latter, At, Distinct;
    var d := s.rqs[id].dir;
    OnFifo(s, t, clock, e, x);
    OnFifo(s, t, clock, d, id);
    if e != d {
      MergedShape(s, id, gone);
    } else if s.rqs[gone].fifoTime < s.rqs[id].fifoTime {
      EarlierAhead(s, t, clock, id, gone);
      PlaceMoves(s.fifo.Get(d), id, gone, x);
    } else {
      LaterPlaces(s.fifo.Get(d), gone, x);
    }
  }

  lemma OnFifo(s: Dd, t: Tuning, clock: nat, d: Dir, x: nat)
    requires Inv(s, t, clock) && x in s.fifo.Get(d)
    ensures x in s.rqs && s.rqs[x].dir == d && Distinct(s.fifo.Get(d))
  {
    hide HeadOk, AllThere, Distinct, ByExpiry, Ascending;
    assert DirOk(s, d, {}, clock + t.expire.Get(d));
  }

  lemma LaterPlaces(l: seq<nat>, gone: nat, x: nat)
    requires Distinct(l) && x in l
    ensures var r := Without(l, gone); if x == gone then x !in r else x in r && At(r, x) <= At(l, x)
  {
    if x == gone {
      WithoutMembers(l, gone);
    } else {
      AtWithout(l, gone, x);
    }
  }

  lemma EarlierAhead(s: Dd, t: Tuning, clock: nat, id: nat, gone: nat)
    requires Inv(s, t, clock) && Mergeable(s, id, gone) && s.rqs[gone].fifoTime < s.rqs[id].fifoTime
    ensures At(s.fifo.Get(s.rqs[id].dir), gone) < At(s.fifo.Get(s.rqs[id].dir), id)
  {
  }

  lemma PlaceMoves(l: seq<nat>, id: nat, gone: nat, x: nat)
    requires Distinct(l) && id in l && gone in l && x in l && At(l, gone) < At(l, id)
    ensures var r := Without(InsertAfter(Without(l, id), id, gone), gone);
            if x == gone then x !in r else x in r && At(r, x) <= At(l, x)
  {
    var w := Without(l, id);
    WithoutMembers(l, id);
    AtWithout(l, id, gone);
    var g := At(w, gone);
    TakesPlace(w, id, g);
    var r := w[g := id];
    hide Without, InsertAfter;
    assert Distinct(r);
    if x == id {
      assert r[g] == id;
      AtIndex(r, g);
    } else if x != gone {
      AtWithout(l, id, x);
      assert r[At(w, x)] == x;
      AtIndex(r, At(w, x));
    }
  }

  /** What a step can only add to. */
  ghost predicate Keeps(s: Dd, s': Dd) {
    && s.head <= s'.head && s.merged <= s'.merged
    && forall x :: x in s.rqs ==> x in s'.rqs && s'.rqs[x].dir == s.rqs[x].dir
  }

  lemma ClearedKeeps(s: Dd, id: nat)
    requires id in s.rqs && Homed(s.rqs, s.sort.Get(s.rqs[id].dir), s.rqs[id].dir)
    ensures Keeps(s, Cleared(s, id))
    ensures Cleared(s, id).fifo.Get(Other(s.rqs[id].dir)) == s.fifo.Get(Other(s.rqs[id].dir))
  {
  }

  lemma ArriveKeeps(s: Dd, t: Tuning, id: nat, d: Dir, pos: nat, now: nat)
    requires id !in s.rqs && Homed(s.rqs, s.sort.Get(d), d)
    ensures var s' := AddRequest(s, t, id, d, pos, now);
            Keeps(s, s') && (s.fifo.write != [] ==> s'.fifo.write != [])
  {
    var s0 := s.(rqs := s.rqs[id := Rq(d, pos, now + t.expire.Get(d))], nrSorted := s.nrSorted + 1);
    ClearedKeeps(s0, id);
    hide Cleared, Insert;
  }

  lemma KeepsTrans(a: Dd, b: Dd, c: Dd)
    requires Keeps(a, b) && Keeps(b, c)
    ensures Keeps(a, c)
  {
  }

  lemma FrontKeeps(s: Dd, id: nat, pos: nat)
    requires id in s.rqs && Homed(s.rqs, s.sort.Get(s.rqs[id].dir), s.rqs[id].dir)
    ensures Keeps(s, FrontMerged(s, id, pos))
    ensures FrontMerged(s, id, pos).fifo.Get(Other(s.rqs[id].dir)) == s.fifo.Get(Other(s.rqs[id].dir))
  {
    var l := Lifted(s, id, pos);
    HomedWithout(s.rqs, s.sort.Get(s.rqs[id].dir), s.rqs[id].dir, id);
    ClearedKeeps(l, id);
    assert Keeps(s, l);
    KeepsTrans(s, l, Cleared(l, id));
    hide Cleared, Without, Insert;
  }

  lemma FrontNonempty(s: Dd, t: Tuning, clock: nat, id: nat, pos: nat)
    requires Inv(s, t, clock) && id in s.rqs && id in s.fifo.Get(s.rqs[id].dir)
    ensures id in FrontMerged(s, id, pos).fifo.Get(s.rqs[id].dir)
  {
    LiftedOk(s, t, id, pos, clock);
    ClearedOk(Lifted(s, id, pos), t, {id}, {}, clock, id);
    hide Cleared, Without, Insert, Mid;
  }

  lemma MergeKeeps(s: Dd, id: nat, gone: nat)
    requires id in s.rqs && gone in s.rqs
    ensures Keeps(s, Merged(s, id, gone))
  {
  }

  lemma CallKeeps(s: Dd, t: Tuning, now: nat)
    requires Known(s.rqs, s.fifo.read) && Known(s.rqs, s.fifo.write)
    ensures Keeps(s, Dispatch(s, t, now).0)
  {
    hide Choose, Without, Latter;
  }

  lemma StepKeeps(s: Dd, t: Tuning, clock: nat, e: Event)
    requires Inv(s, t, clock) && Enabled(s, e) && clock <= e.now
    ensures Keeps(s, Step(s, t, clock, e))
    ensures !e.Call? && s.fifo.write != [] ==> Step(s, t, clock, e).fifo.write != []
  {
    Basics(s, t, clock, Read);
    Basics(s, t, clock, Write);
    hide Inv, Keeps, AddRequest, FrontMerged, Merged, Dispatch, Distinct;
    match e {
      case Arrive(id, d, pos, now) =>
        ArriveKeeps(s, t, id, d, pos, now);
      case MergeFront(id, pos, now) =>
        FrontKeeps(s, id, pos);
        FrontNonempty(s, t, clock, id, pos);
      case MergeTwo(id, gone, now) =>
        MergeKeeps(s, id, gone);
        if s.fifo.write != [] {
          MergedNonempty(s, t, clock, id, gone);
        }
      case Call(now) =>
        CallKeeps(s, t, now);
    }
  }

  lemma MergedNonempty(s: Dd, t: Tuning, clock: nat, id: nat, gone: nat)
    requires Inv(s, t, clock) && Mergeable(s, id, gone) && s.fifo.write != []
    ensures Merged(s, id, gone).fifo.write != []
  {
    if s.rqs[id].dir == Write {
      MergedFifo(s, id, gone, clock + t.expire.write);
      assert id in Merged(s, id, gone).fifo.write;
    }
  }

  lemma {:induction false} RunKeeps(s: Dd, t: Tuning, clock: nat, es: seq<Event>)
    requires Inv(s, t, clock) && Legal(s, t, clock, es)
    ensures Keeps(s, Run(s, t, clock, es))
    decreases |es|
  {
    hide Inv, Step, Enabled;
    if es != [] {
      StepOk(s, t, clock, es[0]);
      StepKeeps(s, t, clock, es[0]);
      RunKeeps(Step(s, t, clock, es[0]), t, es[0].now, es[1..]);
    }
  }

  // ------------------------------------------------------------ starvation bounds

  function Min(a: nat, b: nat): nat {
    if a < b then a else b
  }

  /** The length of a batch. */
  function Batch(t: Tuning): (b: nat)
    ensures b > 0
  {
    if t.fifoBatch == 0 then 1 else t.fifoBatch
  }

  function Times(a: nat, b: nat): nat {
    a * b
  }

  lemma TimesLess(a: nat, b: nat)
    requires a > 0
    ensures Times(a - 1, b) + b == Times(a, b)
  {
  }

  lemma TimesMonotone(a: nat, a': nat, b: nat)
    requires a <= a'
    ensures Times(a, b) <= Times(a', b)
  {
  }

  /** Calls left of the current batch. */
  function BatchLeft(t: Tuning, s: Dd): nat {
    Batch(t) - Min(s.batching, Batch(t))
  }

  /** An upper bound on the calls before one starts a batch of writes, while
      writes are queued. */
  function WriteTurn(t: Tuning, s: Dd): nat {
    Times(t.writesStarved - Min(s.starved, t.writesStarved), Batch(t)) + BatchLeft(t, s) + 1
  }

  /** The same for reads. */
  function ReadTurn(t: Tuning, s: Dd): nat {
    (if s.starved >= t.writesStarved then Batch(t) else 0) + BatchLeft(t, s) + 1
  }

  function Turn(t: Tuning, s: Dd, d: Dir): nat {
    if d.Read? then ReadTurn(t, s) else WriteTurn(t, s)
  }

  /** The largest value a turn can have. */
  function MaxTurn(t: Tuning, d: Dir): nat {
    if d.Read? then 2 * Batch(t) + 1 else Times(t.writesStarved + 1, Batch(t)) + 1
  }

  lemma TurnBound(t: Tuning, s: Dd, d: Dir)
    ensures 1 <= Turn(t, s, d) <= MaxTurn(t, d)
  {
    TimesLess(t.writesStarved + 1, Batch(t));
    TimesMonotone(t.writesStarved - Min(s.starved, t.writesStarved), t.writesStarved, Batch(t));
    hide Times;
  }

  /** The call goes on with the current batch. */
  ghost predicate Continues(s: Dd, t: Tuning, c: Choice) {
    c.Pick? && s.batching < t.fifoBatch && c.batching == s.batching + 1 && c.starved == s.starved
  }

  /** The call starts a batch of `d`, at the oldest request if that has expired. */
  ghost predicate Starts(s: Dd, t: Tuning, now: nat, c: Choice, d: Dir)
    requires Known(s.rqs, s.fifo.Get(d))
  {
    && c.Pick? && c.batching == 1 && s.fifo.Get(d) != [] && c.id in s.rqs && s.rqs[c.id].dir == d
    && (s.rqs[s.fifo.Get(d)[0]].fifoTime < now ==> c.id == s.fifo.Get(d)[0])
    && if d.Read? then (s.fifo.write == [] && c.starved == s.starved)
                       || (s.fifo.write != [] && s.starved < t.writesStarved && c.starved == s.starved + 1)
       else c.starved == 0 && (s.fifo.read == [] || s.starved >= t.writesStarved)
  }

  lemma ChoiceKinds(s: Dd, t: Tuning, clock: nat, now: nat)
    requires Inv(s, t, clock) && (s.fifo.read != [] || s.fifo.write != [])
    ensures var c := Choose(s, t, now);
            && c.Pick? && c.id in s.rqs && c.id in s.fifo.Get(s.rqs[c.id].dir)
            && (Continues(s, t, c) || Starts(s, t, now, c, Read) || Starts(s, t, now, c, Write))
  {
    ChooseOk(s, t, clock, now);
  }

  /** A call brings the turn of `d` nearer, or starts a batch of `d` with the
      first request of its FIFO if that one has expired. */
  lemma CallTurns(s: Dd, t: Tuning, now: nat, c: Choice, d: Dir)
    requires Known(s.rqs, s.fifo.read) && Known(s.rqs, s.fifo.write) && s.fifo.Get(d) != []
    requires Continues(s, t, c) || Starts(s, t, now, c, Read) || Starts(s, t, now, c, Write)
    requires d.Read? ==> t.writesStarved > 0
    ensures var s' := s.(batching := c.batching, starved := c.starved);
            && Turn(t, s', d) < MaxTurn(t, d)
            && (Turn(t, s', d) < Turn(t, s, d) || Starts(s, t, now, c, d))
  {
    var s' := s.(batching := c.batching, starved := c.starved);
    if s.starved < t.writesStarved {
      TimesLess(t.writesStarved - s.starved, Batch(t));
    }
    TimesLess(t.writesStarved + 1, Batch(t));
    TimesMonotone(t.writesStarved - Min(c.starved, t.writesStarved), t.writesStarved, Batch(t));
    hide Times;
  }

  function Calls(es: seq<Event>): nat {
    if es == [] then 0 else (if es[0].Call? then 1 else 0) + Calls(es[1..])
  }

  /** Some request of direction `d` was dispatched between `s` and `s'`. */
  ghost predicate Sent(s: Dd, s': Dd, d: Dir) {
    exists x :: x in s'.head && x !in s.head && x in s'.rqs && s'.rqs[x].dir == d
  }

  /** A call with work to do sends what was chosen and sets the counters. */
  lemma CallSends(s: Dd, t: Tuning, clock: nat, now: nat)
    requires Inv(s, t, clock) && (s.fifo.read != [] || s.fifo.write != [])
    ensures var c, s' := Choose(s, t, now), Dispatch(s, t, now).0;
            && c.Pick? && c.id in s.rqs && c.id !in s.head && c.id in s'.head && s'.rqs == s.rqs
            && s'.batching == c.batching && s'.starved == c.starved
            && s'.fifo == s.fifo.Set(s.rqs[c.id].dir, Without(s.fifo.Get(s.rqs[c.id].dir), c.id))
  {
    ChooseOk(s, t, clock, now);
    hide Choose, Without, Latter;
  }

  lemma CallTurn(s: Dd, t: Tuning, clock: nat, now: nat, d: Dir)
    requires Inv(s, t, clock) && s.fifo.Get(d) != [] && (d.Read? ==> t.writesStarved > 0)
    requires Known(s.rqs, s.fifo.read) && Known(s.rqs, s.fifo.write)
    ensures var c, s' := Choose(s, t, now), Dispatch(s, t, now).0;
            && Turn(t, s', d) < MaxTurn(t, d) && Turn(t, s, d) > 0
            && (Turn(t, s', d) < Turn(t, s, d) || Starts(s, t, now, c, d))
  {
    CallSends(s, t, clock, now);
    ChoiceKinds(s, t, clock, now);
    var c, s' := Choose(s, t, now), Dispatch(s, t, now).0;
    hide Inv, Choose, Dispatch, Starts, Continues, Turn, MaxTurn;
    CallTurns(s, t, now, c, d);
    SameTurn(t, s', s.(batching := c.batching, starved := c.starved), d);
    TurnBound(t, s, d);
  }

  lemma SameTurn(t: Tuning, a: Dd, b: Dd, d: Dir)
    requires Counters(a, b)
    ensures Turn(t, a, d) == Turn(t, b, d)
  {
  }

  /** While a write is queued, a call sends a write or brings the writes' turn nearer. */
  lemma CallForWrites(s: Dd, t: Tuning, clock: nat, now: nat)
    requires Inv(s, t, clock) && s.fifo.write != []
    ensures var s' := Dispatch(s, t, now).0;
            Sent(s, s', Write) || (s'.fifo.write != [] && WriteTurn(t, s') < WriteTurn(t, s))
  {
    Basics(s, t, clock, Read);
    Basics(s, t, clock, Write);
    hide Inv, Choose, Dispatch, Without, Distinct, WriteTurn, ReadTurn;
    CallSends(s, t, clock, now);
    CallTurn(s, t, clock, now, Write);
  }

  lemma {:induction false} WriteTurnComes(s: Dd, t: Tuning, clock: nat, es: seq<Event>)
    requires Inv(s, t, clock) && Legal(s, t, clock, es)
    requires s.fifo.write != [] && Calls(es) >= WriteTurn(t, s)
    ensures Sent(s, Run(s, t, clock, es), Write)
    decreases |es|
  {
    hide Inv, Enabled, Times, Batch, Dispatch, AddRequest, FrontMerged, Merged;
    var e := es[0];
    StepOk(s, t, clock, e);
    StepKeeps(s, t, clock, e);
    var s' := Step(s, t, clock, e);
    RunKeeps(s', t, e.now, es[1..]);
    if e.Call? {
      CallForWrites(s, t, clock, e.now);
    } else {
      SameCounters(s, t, clock, e);
    }
    hide Step;
    if !(e.Call? && Sent(s, s', Write)) {
      WriteTurnComes(s', t, e.now, es[1..]);
    }
  }

  lemma SameCounters(s: Dd, t: Tuning, clock: nat, e: Event)
    requires Inv(s, t, clock) && Enabled(s, e) && !e.Call?
    ensures Counters(s, Step(s, t, clock, e))
  {
  }

  /** However requests arrive and merge, with a write queued some write is
      dispatched within (writes_starved + 1) * max(1, fifo_batch) + 1 calls. */
  lemma WritesNotStarved(s: Dd, t: Tuning, clock: nat, es: seq<Event>)
    requires Inv(s, t, clock) && Legal(s, t, clock, es) && s.fifo.write != []
    requires Calls(es) >= Times(t.writesStarved + 1, Batch(t)) + 1
    ensures Sent(s, Run(s, t, clock, es), Write)
  {
    TurnBound(t, s, Write);
    hide Inv, Legal, Run, Times, Batch;
    WriteTurnComes(s, t, clock, es);
  }

  /** An upper bound on the calls before `x` leaves its FIFO. */
  function Wait(t: Tuning, s: Dd, d: Dir, x: nat): nat
    requires x in s.fifo.Get(d)
  {
    Times(At(s.fifo.Get(d), x), MaxTurn(t, d)) + Turn(t, s, d)
  }

  /** Everything ahead of an expired request has expired too. */
  lemma OldestExpired(s: Dd, t: Tuning, clock: nat, d: Dir, x: nat)
    requires Inv(s, t, clock) && x in s.fifo.Get(d)
    ensures s.fifo.Get(d)[0] in s.rqs && x in s.rqs && s.rqs[s.fifo.Get(d)[0]].fifoTime <= s.rqs[x].fifoTime
    ensures x != s.fifo.Get(d)[0] ==> At(s.fifo.Get(d), s.fifo.Get(d)[0]) < At(s.fifo.Get(d), x)
  {
    var i := At(s.fifo.Get(d), x);
    assert i == 0 || 0 < i;
  }

  /** After the call the wait is shorter, for lists that differ by the request sent. */
  lemma WaitShrinks(t: Tuning, s: Dd, s': Dd, d: Dir, x: nat)
    requires x in s.fifo.Get(d) && x in s'.fifo.Get(d) && Turn(t, s', d) < MaxTurn(t, d) && Turn(t, s, d) > 0
    requires At(s'.fifo.Get(d), x) <= At(s.fifo.Get(d), x)
    requires Turn(t, s', d) < Turn(t, s, d) || At(s'.fifo.Get(d), x) < At(s.fifo.Get(d), x)
    ensures Wait(t, s', d, x) < Wait(t, s, d, x)
  {
    var a, a' := At(s.fifo.Get(d), x), At(s'.fifo.Get(d), x);
    if a' < a {
      TimesLess(a, MaxTurn(t, d));
      TimesMonotone(a', a - 1, MaxTurn(t, d));
    }
    hide Times, Turn, MaxTurn;
  }

  /** Sending `y` moves nobody back; sending the first moves everybody up. */
  lemma SentPlaces(l: seq<nat>, y: nat, x: nat)
    requires Distinct(l) && x in l && x in Without(l, y)
    ensures At(Without(l, y), x) <= At(l, x)
    ensures y == l[0] ==> At(Without(l, y), x) < At(l, x)
  {
    LaterPlaces(l, y, x);
    if y == l[0] {
      AtIndex(l, 0);
      AtWithout(l, y, x);
    }
  }

  lemma CallPlaces(s: Dd, t: Tuning, clock: nat, now: nat, d: Dir, x: nat)
    requires Inv(s, t, clock) && x in s.fifo.Get(d) && x in s.rqs && s.rqs[x].fifoTime < now
    requires Known(s.rqs, s.fifo.read) && Known(s.rqs, s.fifo.write)
    ensures var c, s' := Choose(s, t, now), Dispatch(s, t, now).0;
            x in s'.fifo.Get(d) ==>
              && At(s'.fifo.Get(d), x) <= At(s.fifo.Get(d), x)
              && (Starts(s, t, now, c, d) ==> At(s'.fifo.Get(d), x) < At(s.fifo.Get(d), x))
  {
    CallSends(s, t, clock, now);
    OldestExpired(s, t, clock, d, x);
    Basics(s, t, clock, d);
    var c, s' := Choose(s, t, now), Dispatch(s, t, now).0;
    hide Inv, Choose, Dispatch, Without, At;
    if x in s'.fifo.Get(d) && s.rqs[c.id].dir == d {
      SentPlaces(s.fifo.Get(d), c.id, x);
    }
  }

  lemma CallServes(s: Dd, t: Tuning, clock: nat, now: nat, d: Dir, x: nat)
    requires Inv(s, t, clock) && x in s.fifo.Get(d) && x in s.rqs && s.rqs[x].fifoTime < now
    requires d.Read? ==> t.writesStarved > 0
    ensures var s' := Dispatch(s, t, now).0;
            s'.rqs == s.rqs && (x in s'.fifo.Get(d) ==> Wait(t, s', d, x) < Wait(t, s, d, x))
  {
    Basics(s, t, clock, Read);
    Basics(s, t, clock, Write);
    hide Inv, Choose, Dispatch, Without, At, Wait, Distinct, Turn, MaxTurn, Starts;
    CallSends(s, t, clock, now);
    CallTurn(s, t, clock, now, d);
    CallPlaces(s, t, clock, now, d, x);
    if x in Dispatch(s, t, now).0.fifo.Get(d) {
      WaitShrinks(t, s, Dispatch(s, t, now).0, d, x);
    }
  }

  lemma Somewhere(s: Dd, t: Tuning, clock: nat, d: Dir, x: nat)
    requires Inv(s, t, clock) && x in s.rqs && s.rqs[x].dir == d
    ensures x in s.fifo.Get(d) || x in s.head || x in s.merged
  {
  }

  lemma QuietStep(s: Dd, t: Tuning, clock: nat, e: Event, d: Dir, x: nat)
    requires Inv(s, t, clock) && Enabled(s, e) && clock <= e.now && !e.Call? && x in s.fifo.Get(d) && x in s.rqs
    ensures var s' := Step(s, t, clock, e);
            Counters(s, s') && (x in s'.fifo.Get(d) ==> NoFurther(s, s', d, x))
  {
    Basics(s, t, clock, Read);
    Basics(s, t, clock, Write);
    hide Inv, AddRequest, FrontMerged, Merged, Distinct, NoFurther;
    match e {
      case Arrive(id, dir, pos, now) => ArrivePlaces(s, t, clock, id, dir, pos, now, d, x);
      case MergeFront(id, pos, now) => FrontPlaces(s, t, clock, id, pos, d, x);
      case MergeTwo(id, gone, now) => MergedPlaces(s, t, clock, id, gone, d, x);
      case Call(_) =>
    }
  }

  lemma SameWait(s: Dd, s': Dd, t: Tuning, d: Dir, x: nat)
    requires x in s.fifo.Get(d) && x in s.rqs && Counters(s, s') && NoFurther(s, s', d, x)
    ensures Wait(t, s', d, x) <= Wait(t, s, d, x)
  {
    TimesMonotone(At(s'.fifo.Get(d), x), At(s.fifo.Get(d), x), MaxTurn(t, d));
    hide Times, At;
  }

  /** Any step leaves a queued request's wait no longer, or dispatches or merges it. */
  lemma StepServes(s: Dd, t: Tuning, clock: nat, e: Event, d: Dir, x: nat)
    requires Inv(s, t, clock) && Enabled(s, e) && clock <= e.now && x in s.fifo.Get(d) && x in s.rqs
    requires s.rqs[x].fifoTime < clock && (d.Read? ==> t.writesStarved > 0)
    ensures var s' := Step(s, t, clock, e);
            if x in s'.fifo.Get(d)
            then x in s'.rqs && s'.rqs[x].fifoTime < e.now
                 && Wait(t, s', d, x) + (if e.Call? then 1 else 0) <= Wait(t, s, d, x)
            else x in s'.head || x in s'.merged
  {
    Basics(s, t, clock, d);
    hide Inv, Distinct, Wait, AddRequest, FrontMerged, Merged, Dispatch;
    StepOk(s, t, clock, e);
    StepKeeps(s, t, clock, e);
    var s' := Step(s, t, clock, e);
    Somewhere(s', t, e.now, d, x);
    if e.Call? {
      CallServes(s, t, clock, e.now, d, x);
    } else {
      QuietStep(s, t, clock, e, d, x);
      if x in s'.fifo.Get(d) {
        SameWait(s, s', t, d, x);
      }
    }
  }

  lemma {:induction false} WaitEnds(s: Dd, t: Tuning, clock: nat, es: seq<Event>, d: Dir, x: nat)
    requires Inv(s, t, clock) && Legal(s, t, clock, es) && x in s.fifo.Get(d) && x in s.rqs
    requires s.rqs[x].fifoTime < clock && (d.Read? ==> t.writesStarved > 0)
    requires Calls(es) >= Wait(t, s, d, x)
    ensures var r := Run(s, t, clock, es); x in r.head || x in r.merged
    decreases |es|
  {
    TurnBound(t, s, d);
    hide Inv, Enabled, Times, Turn, At, MaxTurn, Step;
    var e := es[0];
    StepOk(s, t, clock, e);
    var s' := Step(s, t, clock, e);
    StepServes(s, t, clock, e, d, x);
    if x in s'.fifo.Get(d) {
      WaitEnds(s', t, e.now, es[1..], d, x);
    } else {
      RunKeeps(s', t, e.now, es[1..]);
    }
  }

  /** An expired request leaves its FIFO - dispatched, or merged into another -
      within a number of calls linear in its place there. For reads this needs
      writes_starved to be at least one. */
  lemma ExpiredServed(s: Dd, t: Tuning, clock: nat, es: seq<Event>, d: Dir, x: nat)
    requires Inv(s, t, clock) && Legal(s, t, clock, es) && x in s.fifo.Get(d) && x in s.rqs
    requires s.rqs[x].fifoTime < clock && (d.Read? ==> t.writesStarved > 0)
    requires Calls(es) >= Times(At(s.fifo.Get(d), x) + 1, MaxTurn(t, d))
    ensures var r := Run(s, t, clock, es); x in r.head || x in r.merged
  {
    TurnBound(t, s, d);
    TimesLess(At(s.fifo.Get(d), x) + 1, MaxTurn(t, d));
    hide Inv, Legal, Run, Times, Turn, MaxTurn, At;
    WaitEnds(s, t, clock, es, d, x);
  }

  lemma FreshId(used: set<nat>) returns (id: nat)
    ensures id !in used && forall x :: x in used ==> x < id
  {
    if used == {} {
      id := 0;
    } else {
      var y :| y in used;
      id := FreshId(used - {y});
      assert forall x :: x in used ==> x == y || x in used - {y};
      id := if y < id then id else y + 1;
    }
  }

  /** With writes_starved zero, a call made while writes are queued and no read
      batch is going on sends a write. */
  lemma WriteAlwaysFirst(s: Dd, t: Tuning, clock: nat, now: nat)
    requires Inv(s, t, clock) && clock <= now && t.writesStarved == 0 && s.fifo.write != [] && s.next.read.None?
    ensures var s' := Dispatch(s, t, now).0;
            Inv(s', t, now) && s'.fifo.read == s.fifo.read && s'.next.read.None?
  {
    DispatchOk(s, t, clock, now);
    ChooseOk(s, t, clock, now);
    WriteChosen(s, t, clock, now);
    hide Inv, Without, Latter, Choose;
  }

  lemma WriteChosen(s: Dd, t: Tuning, clock: nat, now: nat)
    requires Inv(s, t, clock) && t.writesStarved == 0 && s.fifo.write != [] && s.next.read.None?
    ensures var c := Choose(s, t, now); c.Pick? && c.id in s.rqs && s.rqs[c.id].dir == Write
  {
  }

  lemma WriteArrives(s: Dd, t: Tuning, clock: nat, id: nat, now: nat)
    requires Inv(s, t, clock) && id !in s.rqs && clock <= now && s.next.read.None?
    ensures var s' := AddRequest(s, t, id, Write, 0, now);
            Inv(s', t, now) && s'.fifo.read == s.fifo.read && s'.fifo.write != [] && s'.next.read.None?
  {
    AddOk(s, t, id, Write, 0, clock, now);
    hide Inv, Insert, Without, Latter;
  }

  /** A write arrives and a call sends a write: the reads are where they were. */
  lemma Overtaken(s: Dd, t: Tuning, clock: nat) returns (arrive: Event, s1: Dd, s2: Dd)
    requires Inv(s, t, clock) && t.writesStarved == 0 && s.next.read.None?
    ensures arrive.Arrive? && arrive.now == clock && Enabled(s, arrive)
    ensures s1 == Step(s, t, clock, arrive) && Inv(s1, t, clock)
    ensures s2 == Step(s1, t, clock, Call(clock)) && Inv(s2, t, clock)
    ensures s2.fifo.read == s.fifo.read && s2.next.read.None?
  {
    var id := FreshId(s.rqs.Keys);
    arrive := Arrive(id, Write, 0, clock);
    WriteArrives(s, t, clock, id, clock);
    s1 := Step(s, t, clock, arrive);
    hide Inv, AddRequest, Dispatch;
    WriteAlwaysFirst(s1, t, clock, clock);
    s2 := Step(s1, t, clock, Call(clock));
  }

  /** So for reads the condition writes_starved >= 1 is needed: without it, for
      any number of calls there is a run in which a queued read stays queued. */
  lemma {:induction false} ReadStarves(s: Dd, t: Tuning, clock: nat, x: nat, n: nat) returns (es: seq<Event>)
    requires Inv(s, t, clock) && t.writesStarved == 0 && x in s.fifo.read && s.next.read.None?
    ensures Legal(s, t, clock, es) && Calls(es) == n && x in Run(s, t, clock, es).fifo.read
    decreases n
  {
    hide Inv, Legal, Run, Calls, Step;
    if n == 0 {
      es := [];
      EmptyRun(s, t, clock);
    } else {
      var arrive, s1, s2 := Overtaken(s, t, clock);
      var rest := ReadStarves(s2, t, clock, x, n - 1);
      Prepend(s1, t, clock, Call(clock), rest);
      Prepend(s, t, clock, arrive, [Call(clock)] + rest);
      es := [arrive] + ([Call(clock)] + rest);
    }
  }

  lemma EmptyRun(s: Dd, t: Tuning, clock: nat)
    requires Inv(s, t, clock)
    ensures Legal(s, t, clock, []) && Run(s, t, clock, []) == s && Calls([]) == 0
  {
  }

  lemma Prepend(s: Dd, t: Tuning, clock: nat, e: Event, es: seq<Event>)
    requires Inv(s, t, clock) && Enabled(s, e) && clock <= e.now
    requires Inv(Step(s, t, clock, e), t, e.now) && Legal(Step(s, t, clock, e), t, e.now, es)
    ensures Legal(s, t, clock, [e] + es)
    ensures Run(s, t, clock, [e] + es) == Run(Step(s, t, clock, e), t, e.now, es)
    ensures Calls([e] + es) == Calls(es) + if e.Call? then 1 else 0
  {
    assert ([e] + es)[1..] == es;
    hide Inv, Step, Enabled;
  }

  // ---------------------------------------------------------------------- drain

  /** elv_drain_elevator: forced dispatch until nothing is left. */
  ghost function Drained(s: Dd, t: Tuning, now: nat): Dd
    requires Inv(s, t, now)
    decreases |s.fifo.read| + |s.fifo.write|
  {
    DispatchOk(s, t, now, now);
    if s.fifo.read == [] && s.fifo.write == [] then s else Drained(Dispatch(s, t, now).0, t, now)
  }

  /** Draining dispatches every queued request exactly once, and the count ends at zero. */
  lemma {:induction false} DrainedAll(s: Dd, t: Tuning, now: nat)
    requires Inv(s, t, now)
    ensures var r := Drained(s, t, now);
            && Inv(r, t, now) && r.nrSorted == 0 && r.fifo == Two([], []) && s.head <= r.head && Distinct(r.head)
            && |r.head| == |s.head| + |s.fifo.read| + |s.fifo.write|
            && (forall x :: x in s.fifo.read || x in s.fifo.write ==> x in r.head[|s.head|..])
    decreases |s.fifo.read| + |s.fifo.write|
  {
    DispatchOk(s, t, now, now);
    if s.fifo.read != [] || s.fifo.write != [] {
      var s' := Dispatch(s, t, now).0;
      DrainedAll(s', t, now);
      var r := Drained(s', t, now);
      CallSends(s, t, now, now);
      CallSplits(s, t, now);
      forall x | x in s.fifo.read || x in s.fifo.write
        ensures x in r.head[|s.head|..]
      {
        if x == Choose(s, t, now).id {
          assert r.head[|s.head|..][0] == x;
        } else {
          assert x in r.head[|s'.head|..];
        }
      }
    }
  }

  lemma CallSplits(s: Dd, t: Tuning, now: nat)
    requires Inv(s, t, now) && (s.fifo.read != [] || s.fifo.write != [])
    ensures var c, s' := Choose(s, t, now), Dispatch(s, t, now).0;
            c.Pick? && s'.head == s.head + [c.id]
            && forall x :: x in s.fifo.read || x in s.fifo.write ==>
                 x == c.id || x in s'.fifo.read || x in s'.fifo.write
  {
    ChooseOk(s, t, now, now);
    var c := Choose(s, t, now);
    WithoutMembers(s.fifo.Get(s.rqs[c.id].dir), c.id);
    hide Choose, Without, Latter;
  }

  // ------------------------------------------------------------------ the code

  /** Once the request at its sector is gone there is no other. */
  lemma ClearedOnce(s: Dd, t: Tuning, out: set<nat>, loose: set<nat>, clock: nat, id: nat, a: nat)
    requires Mid(s, t, out, loose, clock) && id in s.rqs && id !in s.sort.Get(s.rqs[id].dir)
    requires Homed(s.rqs, s.sort.Get(s.rqs[id].dir), s.rqs[id].dir)
    requires Alias(s.rqs, s.sort.Get(s.rqs[id].dir), s.rqs[id].pos) == Some(a)
    ensures Cleared(s, id) == Move(s, a) && Mid(Move(s, a), t, out, loose, clock)
    ensures var l := Move(s, a).sort.Get(s.rqs[id].dir);
            Homed(s.rqs, l, s.rqs[id].dir) && Alias(s.rqs, l, s.rqs[id].pos).None?
  {
    ClearedOk(s, t, out, loose, clock, id);
    hide Mid, Without, Latter;
  }

  class DeadlineData {
    const t: Tuning
    var dd: Dd

    constructor (t: Tuning)
      ensures this.t == t && dd == EMPTY && Inv(dd, t, 0)
    {
      this.t := t;
      dd := EMPTY;
    }

    method MoveRequest(id: nat)
      requires id in dd.rqs
      modifies this
      ensures dd == Move(old(dd), id)
    {
      var d := dd.rqs[id].dir;
      dd := dd.(next := Two(None, None));
      dd := dd.(next := dd.next.Set(d, Latter(dd.sort.Get(d), id)));
      RemoveRequest(id);
      dd := dd.(nrSorted := dd.nrSorted - 1, head := dd.head + [id]);
    }

    /** deadline_remove_request; a `next` that is removed moves on. */
    method RemoveRequest(id: nat)
      requires id in dd.rqs
      modifies this
      ensures var d, was := old(dd.rqs[id].dir), old(dd);
              dd == Drop(was, d, id).(next := was.next.Set(d, if was.next.Get(d) == Some(id)
                                                              then Latter(was.sort.Get(d), id) else was.next.Get(d)))
    {
      var d := dd.rqs[id].dir;
      dd := dd.(fifo := dd.fifo.Set(d, Without(dd.fifo.Get(d), id)));
      if dd.next.Get(d) == Some(id) {
        dd := dd.(next := dd.next.Set(d, Latter(dd.sort.Get(d), id)));
      }
      dd := dd.(sort := dd.sort.Set(d, Without(dd.sort.Get(d), id)));
    }

    /** deadline_add_rq_rb: dispatch aliases until the insertion succeeds. */
    method AddRqRb(id: nat, ghost out: set<nat>, ghost loose: set<nat>, ghost clock: nat)
      requires Mid(dd, t, out, loose, clock) && id in dd.rqs && id !in dd.sort.Get(dd.rqs[id].dir)
      requires Homed(dd.rqs, dd.sort.Get(dd.rqs[id].dir), dd.rqs[id].dir)
      modifies this
      ensures dd == AddRb(old(dd), id)
    {
      ghost var was := dd;
      var d := dd.rqs[id].dir;
      hide Mid, Move, Insert, Without, Latter, Alias;
      var alias := Alias(dd.rqs, dd.sort.Get(d), dd.rqs[id].pos);
      while alias.Some?
        invariant dd.rqs == was.rqs && Homed(dd.rqs, dd.sort.Get(d), d)
        invariant alias == Alias(dd.rqs, dd.sort.Get(d), dd.rqs[id].pos)
        invariant if alias.Some? then dd == was else dd == Cleared(was, id)
        decreases alias.Some?
      {
        ClearedOnce(was, t, out, loose, clock, id, alias.value);
        MoveRequest(alias.value);
        alias := Alias(dd.rqs, dd.sort.Get(d), dd.rqs[id].pos);
      }
      dd := dd.(sort := dd.sort.Set(d, Insert(dd.rqs, dd.sort.Get(d), id)));
    }

    /** deadline_add_request, called with the request already counted. */
    method AddRq(id: nat, d: Dir, pos: nat, now: nat, ghost clock: nat)
      requires Inv(dd, t, clock) && clock <= now && id !in dd.rqs
      modifies this
      ensures Homed(old(dd.rqs), old(dd.sort).Get(d), d) && dd == AddRequest(old(dd), t, id, d, pos, now)
      ensures Inv(dd, t, now)
    {
      hide Mid, AddRb;
      var rq := Rq(d, pos, now + t.expire.Get(d));
      Later(dd, t, clock, now);
      RegisterOk(dd, t, id, rq, now);
      AddOk(dd, t, id, d, pos, clock, now);
      dd := dd.(nrSorted := dd.nrSorted + 1, rqs := dd.rqs[id := rq]);
      AddRqRb(id, {}, {id}, now);
      dd := dd.(fifo := dd.fifo.Set(d, dd.fifo.Get(d) + [id]));
    }

    /** deadline_merged_request after a front merge. */
    method MergedRequest(id: nat, pos: nat, ghost clock: nat)
      requires Inv(dd, t, clock) && id in dd.rqs && id in dd.fifo.Get(dd.rqs[id].dir)
      modifies this
      ensures Homed(old(dd.rqs), old(dd).sort.Get(old(dd).rqs[id].dir), old(dd).rqs[id].dir)
      ensures dd == FrontMerged(old(dd), id, pos) && Inv(dd, t, clock)
    {
      var d := dd.rqs[id].dir;
      Basics(dd, t, clock, d);
      LiftedOk(dd, t, id, pos, clock);
      FrontMergedOk(dd, t, id, pos, clock);
      hide Mid, AddRb;
      HomedWithout(dd.rqs, dd.sort.Get(d), d, id);
      dd := dd.(rqs := dd.rqs[id := dd.rqs[id].(pos := pos)]);
      dd := dd.(sort := dd.sort.Set(d, Without(dd.sort.Get(d), id)));
      AddRqRb(id, {id}, {}, clock);
    }

    /** deadline_merged_requests. */
    method MergedRequests(id: nat, gone: nat, ghost clock: nat)
      requires Inv(dd, t, clock) && Mergeable(dd, id, gone)
      modifies this
      ensures dd == Merged(old(dd), id, gone) && Inv(dd, t, clock)
    {
      var d := dd.rqs[id].dir;
      MergedOk(dd, t, id, gone, clock);
      hide Inv, Without, InsertAfter, Latter;
      if dd.rqs[gone].fifoTime < dd.rqs[id].fifoTime {
        dd := dd.(fifo := dd.fifo.Set(d, InsertAfter(Without(dd.fifo.Get(d), id), id, gone)));
        dd := dd.(rqs := dd.rqs[id := dd.rqs[id].(fifoTime := dd.rqs[gone].fifoTime)]);
      }
      RemoveRequest(gone);
      dd := dd.(merged := dd.merged + {gone}, nrSorted := dd.nrSorted - 1);
    }

    /** deadline_dispatch_requests up to the move: the request selected, with
        `batching` and `starved` updated. */
    method SelectRequest(now: nat) returns (rq: Option<nat>)
      requires Known(dd.rqs, dd.fifo.read) && Known(dd.rqs, dd.fifo.write)
      modifies this
      ensures var was := old(dd); var c := Choose(was, t, now);
              if c.Pick? then rq == Some(c.id) && dd == was.(batching := c.batching, starved := c.starved)
              else rq.None? && dd == was
    {
      var pending, writes := dd.fifo.read != [], dd.fifo.write != [];
      rq := if dd.next.write.Some? then dd.next.write else dd.next.read;
      if rq.None? || dd.batching >= t.fifoBatch {
        var d := Read;
        if pending {
          if writes {
            dd := dd.(starved := dd.starved + 1);
            if dd.starved > t.writesStarved {
              d := Write;
            }
          }
        } else if writes {
          d := Write;
        } else {
          return None;
        }
        if d == Write {
          dd := dd.(starved := 0);
        }
        if dd.rqs[dd.fifo.Get(d)[0]].fifoTime < now || dd.next.Get(d).None? {
          rq := Some(dd.fifo.Get(d)[0]);
        } else {
          rq := dd.next.Get(d);
        }
        dd := dd.(batching := 0);
      }
      dd := dd.(batching := dd.batching + 1);
    }

    /** deadline_dispatch_requests. */
    method DispatchRequests(now: nat, ghost clock: nat) returns (sent: bool)
      requires Inv(dd, t, clock) && clock <= now && Known(dd.rqs, dd.fifo.read) && Known(dd.rqs, dd.fifo.write)
      modifies this
      ensures (dd, sent) == Dispatch(old(dd), t, now)
      ensures Inv(dd, t, now) && sent == (old(dd).fifo.read != [] || old(dd).fifo.write != [])
    {
      DispatchOk(dd, t, clock, now);
      ChooseOk(dd, t, clock, now);
      hide Inv, Move, Choose;
      var rq := SelectRequest(now);
      if rq.Some? {
        MoveRequest(rq.value);
      }
      sent := rq.Some?;
    }

    /** elv_drain_elevator. */
    method DrainElevator(now: nat)
      requires Inv(dd, t, now)
      modifies this
      ensures dd == Drained(old(dd), t, now) && Inv(dd, t, now)
      ensures dd.nrSorted == 0 && dd.fifo == Two([], [])
    {
      ghost var was := dd;
      DrainedAll(dd, t, now);
      var more := true;
      while more
        invariant Inv(dd, t, now) && Drained(dd, t, now) == Drained(was, t, now)
        invariant !more ==> dd.fifo == Two([], [])
        decreases |dd.fifo.read| + |dd.fifo.write|, more
      {
        Basics(dd, t, now, Read);
        Basics(dd, t, now, Write);
        DispatchOk(dd, t, now, now);
        more := DispatchRequests(now, now);
      }
    }
  }
}

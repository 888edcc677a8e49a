/** The merge hash of the elevator (block/elevator.c): queued requests hashed by
    the sector behind their end, so that a request that a new bio continues is
    found without looking at all of them. */
module MergeHash {
  import opened Lists

  const ENTRIES := 64

  /** A request of `sectors` sectors from `pos`. */
  datatype Rq = Rq(pos: nat, sectors: nat, mergeable: bool)

  /** rq_hash_key. */
  function EndOf(r: Rq): nat {
    r.pos + r.sectors
  }

  /** The buckets of the hash, over the requests of the queue. */
  datatype Table = Table(rqs: map<nat, Rq>, buckets: seq<seq<nat>>)

  /** ELV_HASH_FN: any hash of the block a sector is in. */
  function Bucket(h: nat -> nat, sector: nat): (b: nat)
    ensures b < ENTRIES
  {
    h(sector / 8) % ENTRIES
  }

  // ------------------------------------------------------------------ operations

  ghost predicate Hashed(s: Table, x: nat) {
    exists b :: 0 <= b < |s.buckets| && x in s.buckets[b]
  }

  /** elv_rqhash_del. */
  function Del(s: Table, x: nat): (s': Table)
    ensures |s'.buckets| == |s.buckets| && s'.rqs == s.rqs
  {
    s.(buckets := seq(|s.buckets|, b requires 0 <= b < |s.buckets| => Without(s.buckets[b], x)))
  }

  /** elv_rqhash_add. */
  function Add(h: nat -> nat, s: Table, x: nat): (s': Table)
    requires x in s.rqs && |s.buckets| == ENTRIES
    ensures |s'.buckets| == ENTRIES && s'.rqs == s.rqs
  {
    var b := Bucket(h, EndOf(s.rqs[x]));
    s.(buckets := s.buckets[b := [x] + s.buckets[b]])
  }

  /** What elv_rqhash_find leaves of a bucket and what it finds there: requests
      that can no longer be merged are dropped on the way. */
  function Search(rqs: map<nat, Rq>, l: seq<nat>, offset: nat): (seq<nat>, Option<nat>)
    requires forall x :: x in l ==> x in rqs
  {
    if l == [] then ([], None)
    else if !rqs[l[0]].mergeable then Search(rqs, l[1..], offset)
    else if EndOf(rqs[l[0]]) == offset then (l, Some(l[0]))
    else
      var (rest, found) := Search(rqs, l[1..], offset);
      ([l[0]] + rest, found)
  }

  function Find(h: nat -> nat, s: Table, offset: nat): (Table, Option<nat>)
    requires |s.buckets| == ENTRIES && forall x :: x in s.buckets[Bucket(h, offset)] ==> x in s.rqs
  {
    var b := Bucket(h, offset);
    var (l, found) := Search(s.rqs, s.buckets[b], offset);
    (s.(buckets := s.buckets[b := l]), found)
  }

  // ------------------------------------------------------------------- invariant

  /** Every hashed request is in the bucket of its end sector, once. */
  ghost predicate Inv(h: nat -> nat, s: Table) {
    && |s.buckets| == ENTRIES
    && (forall b :: 0 <= b < ENTRIES ==> Distinct(s.buckets[b]))
    && (forall b, x :: 0 <= b < ENTRIES && x in s.buckets[b] ==> x in s.rqs && b == Bucket(h, EndOf(s.rqs[x])))
  }

  lemma AllBuckets(h: nat -> nat, s: Table)
    requires Inv(h, s)
    ensures |s.buckets| == ENTRIES
  {
  }

  lemma DelOk(h: nat -> nat, s: Table, x: nat)
    requires Inv(h, s)
    ensures Inv(h, Del(s, x)) && forall y :: Hashed(Del(s, x), y) <==> Hashed(s, y) && y != x
  {
    var s' := Del(s, x);
    forall b | 0 <= b < ENTRIES
      ensures Distinct(s'.buckets[b]) && forall y :: y in s'.buckets[b] <==> y in s.buckets[b] && y != x
    {
      WithoutMembers(s.buckets[b], x);
    }
    hide Without, Bucket;
    forall y
      ensures Hashed(s', y) <==> Hashed(s, y) && y != x
    {
      if Hashed(s, y) && y != x {
        var b :| 0 <= b < |s.buckets| && y in s.buckets[b];
        assert y in s'.buckets[b];
      }
    }
  }

  lemma AddOk(h: nat -> nat, s: Table, x: nat)
    requires Inv(h, s) && x in s.rqs && !Hashed(s, x)
    ensures Inv(h, Add(h, s, x)) && forall y :: Hashed(Add(h, s, x), y) <==> Hashed(s, y) || y == x
  {
    hide Bucket;
    var s', c := Add(h, s, x), Bucket(h, EndOf(s.rqs[x]));
    assert x !in s.buckets[c];
    assert forall y :: y in s'.buckets[c] <==> y == x || y in s.buckets[c];
    forall y
      ensures Hashed(s', y) <==> Hashed(s, y) || y == x
    {
      if Hashed(s, y) {
        var b :| 0 <= b < |s.buckets| && y in s.buckets[b];
        assert y in s'.buckets[b];
      }
      if y == x {
        assert x in s'.buckets[c];
      }
    }
  }

  /** elv_rqhash_reposition. */
  function Reposition(h: nat -> nat, s: Table, x: nat): Table
    requires x in s.rqs && |s.buckets| == ENTRIES
  {
    Add(h, Del(s, x), x)
  }

  /** All requests but `x` are in the right bucket; `x` may be anywhere. */
  ghost predicate Stale(h: nat -> nat, s: Table, x: nat) {
    Inv(h, Del(s, x)) && |s.buckets| == ENTRIES && forall b :: 0 <= b < ENTRIES ==> Distinct(s.buckets[b])
  }

  /** Rehashing puts a request that has changed back in its place. */
  lemma RepositionOk(h: nat -> nat, s: Table, x: nat)
    requires x in s.rqs && Stale(h, s, x)
    ensures Inv(h, Reposition(h, s, x)) && Hashed(Reposition(h, s, x), x)
    ensures forall y :: y != x ==> (Hashed(Reposition(h, s, x), y) <==> Hashed(Del(s, x), y))
  {
    var s1 := Del(s, x);
    forall b | 0 <= b < ENTRIES
      ensures x !in s1.buckets[b]
    {
      WithoutMembers(s.buckets[b], x);
    }
    hide Del, Add, Inv;
    AddOk(h, s1, x);
  }

  /** Changing a request that is not hashed, or one that keeps its end sector,
      disturbs nothing; changing another leaves only it in the wrong place. */
  lemma ChangeOk(h: nat -> nat, s: Table, x: nat, r: Rq)
    requires Inv(h, s) && x in s.rqs
    ensures Stale(h, s.(rqs := s.rqs[x := r]), x)
    ensures EndOf(r) == EndOf(s.rqs[x]) ==> Inv(h, s.(rqs := s.rqs[x := r]))
  {
    var s1 := s.(rqs := s.rqs[x := r]);
    DelOk(h, s, x);
    var d := Del(s1, x);
    assert d.buckets == Del(s, x).buckets;
    forall b | 0 <= b < ENTRIES
      ensures x !in d.buckets[b]
    {
      WithoutMembers(s.buckets[b], x);
    }
    hide Del, Bucket;
  }

  // ---------------------------------------------------------------------- lookup

  /** The request a merge wants: it can be merged and ends at `offset`. */
  ghost predicate Wanted(rqs: map<nat, Rq>, x: nat, offset: nat) {
    x in rqs && rqs[x].mergeable && EndOf(rqs[x]) == offset
  }

  lemma {:induction false} SearchIs(rqs: map<nat, Rq>, l: seq<nat>, offset: nat)
    requires forall x :: x in l ==> x in rqs
    ensures var (rest, found) := Search(rqs, l, offset);
            && (if found.Some? then found.value in l && Wanted(rqs, found.value, offset)
                else forall x :: x in l ==> !Wanted(rqs, x, offset))
            && (forall x :: x in rest ==> x in l) && (forall x :: x in l && rqs[x].mergeable ==> x in rest)
            && (Distinct(l) ==> Distinct(rest))
  {
    if l != [] {
      SearchIs(rqs, l[1..], offset);
      if rqs[l[0]].mergeable && EndOf(rqs[l[0]]) != offset {
        var (rest, found) := Search(rqs, l[1..], offset);
        var r := [l[0]] + rest;
        assert r[1..] == rest;
        hide Search;
        assert Distinct(l) ==> l[0] !in l[1..];
      }
    }
  }

  /** A lookup finds a request exactly when a scan of all hashed requests would,
      and drops none that could still be merged. */
  lemma FindExactly(h: nat -> nat, s: Table, offset: nat)
    requires Inv(h, s)
    ensures var (s', found) := Find(h, s, offset);
            && Inv(h, s') && s'.rqs == s.rqs
            && (found.Some? <==> exists x :: Hashed(s, x) && Wanted(s.rqs, x, offset))
            && (found.Some? ==> Hashed(s, found.value) && Wanted(s.rqs, found.value, offset))
            && (forall x :: Hashed(s', x) ==> Hashed(s, x))
            && (forall x :: Hashed(s, x) && s.rqs[x].mergeable ==> Hashed(s', x))
  {
    var c := Bucket(h, offset);
    SearchIs(s.rqs, s.buckets[c], offset);
    var (s', found) := Find(h, s, offset);
    hide Search, Bucket, Distinct;
    forall x | Hashed(s, x) && s.rqs[x].mergeable
      ensures Hashed(s', x) && (EndOf(s.rqs[x]) == offset ==> x in s.buckets[c])
    {
      var b :| 0 <= b < |s.buckets| && x in s.buckets[b];
      assert x in s'.buckets[b];
    }
    forall x | Hashed(s', x)
      ensures Hashed(s, x)
    {
      var b :| 0 <= b < |s'.buckets| && x in s'.buckets[b];
      assert x in s.buckets[b];
    }
  }

  // ------------------------------------------------------------------------ runs

  /** What happens to queued requests and the hash. */
  datatype Event =
    | Insert(x: nat, r: Rq)
    | BackMerge(x: nat, sectors: nat)
    | FrontMerge(x: nat, sectors: nat)
    | MergeTwo(x: nat, next: nat)
    | Block(x: nat)
    | Dispatch(x: nat)
    | Lookup(offset: nat)

  ghost predicate Enabled(s: Table, e: Event) {
    match e
    case Insert(x, _) => x !in s.rqs
    case BackMerge(x, _) => x in s.rqs
    case FrontMerge(x, sectors) => x in s.rqs && sectors <= s.rqs[x].pos
    case MergeTwo(x, next) => x in s.rqs && next in s.rqs && x != next && EndOf(s.rqs[x]) == s.rqs[next].pos
    case Block(x) => x in s.rqs
    case Dispatch(x) => true
    case Lookup(_) => true
  }

  /** A bio or a request is appended to `x`, which is then rehashed. */
  function Appended(h: nat -> nat, s: Table, x: nat, sectors: nat): Table
    requires x in s.rqs && |s.buckets| == ENTRIES
  {
    Reposition(h, s.(rqs := s.rqs[x := s.rqs[x].(sectors := s.rqs[x].sectors + sectors)]), x)
  }

  ghost function Step(h: nat -> nat, s: Table, e: Event): Table
    requires Inv(h, s) && Enabled(s, e)
  {
    match e
    case Insert(x, r) =>
      var s1 := s.(rqs := s.rqs[x := r]);
      if r.mergeable then Add(h, s1, x) else s1
    case BackMerge(x, sectors) => Appended(h, s, x, sectors)
    case FrontMerge(x, sectors) =>
      s.(rqs := s.rqs[x := s.rqs[x].(pos := s.rqs[x].pos - sectors, sectors := s.rqs[x].sectors + sectors)])
    case MergeTwo(x, next) => Del(Appended(h, s, x, s.rqs[next].sectors), next)
    case Block(x) => s.(rqs := s.rqs[x := s.rqs[x].(mergeable := false)])
    case Dispatch(x) => Del(s, x)
    case Lookup(offset) => Find(h, s, offset).0
  }

  lemma AppendedOk(h: nat -> nat, s: Table, x: nat, sectors: nat)
    requires Inv(h, s) && x in s.rqs
    ensures Inv(h, Appended(h, s, x, sectors))
  {
    hide Inv, Reposition, Stale;
    AllBuckets(h, s);
    var r := s.rqs[x].(sectors := s.rqs[x].sectors + sectors);
    ChangeOk(h, s, x, r);
    RepositionOk(h, s.(rqs := s.rqs[x := r]), x);
  }

  lemma InsertOk(h: nat -> nat, s: Table, x: nat, r: Rq)
    requires Inv(h, s) && x !in s.rqs
    ensures var s1 := s.(rqs := s.rqs[x := r]); Inv(h, s1) && Inv(h, Add(h, s1, x))
  {
    var s1 := s.(rqs := s.rqs[x := r]);
    hide Bucket, Distinct;
    assert Inv(h, s1) && !Hashed(s1, x);
    AddOk(h, s1, x);
  }

  /** Every step keeps each hashed request in the bucket of its end sector: only
      appending moves the end, and only then is the request rehashed. */
  lemma StepOk(h: nat -> nat, s: Table, e: Event)
    requires Inv(h, s) && Enabled(s, e)
    ensures Inv(h, Step(h, s, e))
  {
    hide Inv, Appended, Add, Del, Find, Stale, Bucket;
    AllBuckets(h, s);
    match e {
      case Insert(x, r) => InsertOk(h, s, x, r);
      case BackMerge(x, sectors) => AppendedOk(h, s, x, sectors);
      case FrontMerge(x, sectors) =>
        ChangeOk(h, s, x, s.rqs[x].(pos := s.rqs[x].pos - sectors, sectors := s.rqs[x].sectors + sectors));
      case MergeTwo(x, next) =>
        AppendedOk(h, s, x, s.rqs[next].sectors);
        DelOk(h, Appended(h, s, x, s.rqs[next].sectors), next);
      case Block(x) => ChangeOk(h, s, x, s.rqs[x].(mergeable := false));
      case Dispatch(x) => DelOk(h, s, x);
      case Lookup(offset) => LookupOk(h, s, offset);
    }
  }

  lemma LookupOk(h: nat -> nat, s: Table, offset: nat)
    requires Inv(h, s)
    ensures |s.buckets| == ENTRIES && (forall x :: x in s.buckets[Bucket(h, offset)] ==> x in s.rqs)
    ensures Inv(h, Find(h, s, offset).0)
  {
    FindExactly(h, s, offset);
    hide Find, Bucket;
  }

  ghost predicate Legal(h: nat -> nat, s: Table, es: seq<Event>)
    requires Inv(h, s)
    decreases |es|
  {
    es == [] || (Enabled(s, es[0]) && (StepOk(h, s, es[0]); Legal(h, Step(h, s, es[0]), es[1..])))
  }

  ghost function Run(h: nat -> nat, s: Table, es: seq<Event>): Table
    requires Inv(h, s) && Legal(h, s, es)
    decreases |es|
  {
    if es == [] then s else StepOk(h, s, es[0]); Run(h, Step(h, s, es[0]), es[1..])
  }

  // ------------------------------------------------------ the queue, without a hash

  /** The requests on the queue, by what happens to them alone. */
  type Queue = map<nat, Rq>

  predicate OnQueue(q: Queue, e: Event) {
    match e
    case Insert(x, _) => x !in q
    case MergeTwo(x, next) => x in q && next in q && x != next
    case Lookup(_) => true
    case _ => e.x in q
  }

  function QueueStep(q: Queue, e: Event): Queue
    requires OnQueue(q, e)
  {
    match e
    case Insert(x, r) => q[x := r]
    case BackMerge(x, sectors) => q[x := q[x].(sectors := q[x].sectors + sectors)]
    case FrontMerge(x, sectors) =>
      q[x := q[x].(pos := if sectors <= q[x].pos then q[x].pos - sectors else 0, sectors := q[x].sectors + sectors)]
    case MergeTwo(x, next) => q[x := q[x].(sectors := q[x].sectors + q[next].sectors)] - {next}
    case Block(x) => q[x := q[x].(mergeable := false)]
    case Dispatch(x) => q - {x}
    case Lookup(_) => q
  }

  predicate AllOnQueue(q: Queue, es: seq<Event>)
    decreases |es|
  {
    es != [] ==> OnQueue(q, es[0]) && AllOnQueue(QueueStep(q, es[0]), es[1..])
  }

  function QueueRun(q: Queue, es: seq<Event>): Queue
    requires AllOnQueue(q, es)
    decreases |es|
  {
    if es == [] then q else QueueRun(QueueStep(q, es[0]), es[1..])
  }

  /** The hash knows the requests of the queue as they are, holds no others, and
      all that can be merged. */
  ghost predicate Agrees(s: Table, q: Queue) {
    && (forall x :: x in q ==> x in s.rqs && s.rqs[x] == q[x])
    && (forall x :: Hashed(s, x) ==> x in q)
    && (forall x :: x in q && q[x].mergeable ==> Hashed(s, x))
  }

  lemma SameHashed(s: Table, s': Table)
    requires s'.buckets == s.buckets
    ensures forall x :: Hashed(s', x) <==> Hashed(s, x)
  {
  }

  lemma InsertHashed(h: nat -> nat, s: Table, x: nat, r: Rq)
    requires Inv(h, s) && x !in s.rqs
    ensures var s' := Add(h, s.(rqs := s.rqs[x := r]), x); forall y :: Hashed(s', y) <==> Hashed(s, y) || y == x
  {
    var s1 := s.(rqs := s.rqs[x := r]);
    InsertOk(h, s, x, r);
    SameHashed(s, s1);
    assert !Hashed(s1, x);
    hide Inv, Add, Hashed;
    AddOk(h, s1, x);
  }

  lemma AppendedHashed(h: nat -> nat, s: Table, x: nat, sectors: nat)
    requires Inv(h, s) && x in s.rqs && |s.buckets| == ENTRIES
    ensures forall y :: Hashed(Appended(h, s, x, sectors), y) <==> Hashed(s, y) || y == x
    ensures Appended(h, s, x, sectors).rqs == s.rqs[x := s.rqs[x].(sectors := s.rqs[x].sectors + sectors)]
  {
    hide Inv, Hashed, Stale, Del, Add;
    var r := s.rqs[x].(sectors := s.rqs[x].sectors + sectors);
    var s1 := s.(rqs := s.rqs[x := r]);
    ChangeOk(h, s, x, r);
    RepositionOk(h, s1, x);
    DelOk(h, s, x);
    SameDel(s, s1, x);
  }

  lemma SameDel(s: Table, s1: Table, x: nat)
    requires s1.buckets == s.buckets
    ensures forall y :: Hashed(Del(s1, x), y) <==> Hashed(Del(s, x), y)
  {
    SameHashed(Del(s, x), Del(s1, x));
    hide Hashed;
  }

  lemma InsertAgrees(h: nat -> nat, s: Table, q: Queue, e: Event)
    requires Inv(h, s) && Enabled(s, e) && OnQueue(q, e) && Agrees(s, q) && e.Insert?
    ensures Agrees(Step(h, s, e), QueueStep(q, e))
  {
    hide Inv, Add, Hashed;
    InsertHashed(h, s, e.x, e.r);
    SameHashed(s, s.(rqs := s.rqs[e.x := e.r]));
  }

  lemma TwoAgree(h: nat -> nat, s: Table, q: Queue, e: Event)
    requires Inv(h, s) && Enabled(s, e) && OnQueue(q, e) && Agrees(s, q) && e.MergeTwo?
    ensures Agrees(Step(h, s, e), QueueStep(q, e))
  {
    hide Inv, Appended, Del, Hashed;
    AllBuckets(h, s);
    AppendedHashed(h, s, e.x, s.rqs[e.next].sectors);
    AppendedOk(h, s, e.x, s.rqs[e.next].sectors);
    DelOk(h, Appended(h, s, e.x, s.rqs[e.next].sectors), e.next);
  }

  /** A request of the queue changes, the hash does not. */
  lemma ChangeAgrees(s: Table, q: Queue, x: nat, r: Rq)
    requires Agrees(s, q) && x in q && (r.mergeable ==> q[x].mergeable)
    ensures Agrees(s.(rqs := s.rqs[x := r]), q[x := r])
  {
    SameHashed(s, s.(rqs := s.rqs[x := r]));
    hide Hashed;
  }

  lemma BackAgrees(h: nat -> nat, s: Table, q: Queue, x: nat, sectors: nat)
    requires Inv(h, s) && Agrees(s, q) && x in q && x in s.rqs && |s.buckets| == ENTRIES
    ensures Agrees(Appended(h, s, x, sectors), q[x := q[x].(sectors := q[x].sectors + sectors)])
  {
    hide Inv, Appended, Hashed;
    AppendedHashed(h, s, x, sectors);
  }

  lemma GoneAgrees(h: nat -> nat, s: Table, q: Queue, x: nat)
    requires Inv(h, s) && Agrees(s, q)
    ensures Agrees(Del(s, x), q - {x})
  {
    hide Inv, Hashed;
    DelOk(h, s, x);
    hide Del;
  }

  lemma LookupAgrees(h: nat -> nat, s: Table, q: Queue, offset: nat)
    requires Inv(h, s) && Agrees(s, q)
    ensures |s.buckets| == ENTRIES && (forall x :: x in s.buckets[Bucket(h, offset)] ==> x in s.rqs)
    ensures Agrees(Find(h, s, offset).0, q)
  {
    FindExactly(h, s, offset);
    hide Find, Hashed, Bucket;
  }

  lemma StepAgrees(h: nat -> nat, s: Table, q: Queue, e: Event)
    requires Inv(h, s) && Enabled(s, e) && OnQueue(q, e) && Agrees(s, q)
    ensures Agrees(Step(h, s, e), QueueStep(q, e))
  {
    hide Inv, Appended, Del, Find, Hashed, Bucket;
    AllBuckets(h, s);
    match e {
      case Insert(x, r) => InsertAgrees(h, s, q, e);
      case BackMerge(x, sectors) => BackAgrees(h, s, q, x, sectors);
      case FrontMerge(x, sectors) => ChangeAgrees(s, q, x, QueueStep(q, e)[x]);
      case MergeTwo(x, next) => TwoAgree(h, s, q, e);
      case Block(x) => ChangeAgrees(s, q, x, q[x].(mergeable := false));
      case Dispatch(x) => GoneAgrees(h, s, q, x);
      case Lookup(offset) => LookupAgrees(h, s, q, offset);
    }
  }

  lemma {:induction false} RunAgrees(h: nat -> nat, s: Table, q: Queue, es: seq<Event>)
    requires Inv(h, s) && Legal(h, s, es) && AllOnQueue(q, es) && Agrees(s, q)
    ensures Inv(h, Run(h, s, es)) && Agrees(Run(h, s, es), QueueRun(q, es))
    decreases |es|
  {
    hide Inv, Step, QueueStep, Enabled, OnQueue, Agrees;
    if es != [] {
      StepOk(h, s, es[0]);
      StepAgrees(h, s, q, es[0]);
      RunAgrees(h, Step(h, s, es[0]), QueueStep(q, es[0]), es[1..]);
    }
  }

  const EMPTY := Table(map[], seq(ENTRIES, _ => []))

  lemma EmptyAgrees(h: nat -> nat)
    ensures Inv(h, EMPTY) && Agrees(EMPTY, map[])
  {
  }

  /** After every run a lookup finds a request exactly if some request on the
      queue can be merged and ends there, and finds such a one: what a scan of the
      queue would say. */
  lemma {:induction false} LookupReached(h: nat -> nat, es: seq<Event>, offset: nat)
    requires Inv(h, EMPTY) && Legal(h, EMPTY, es) && AllOnQueue(map[], es)
    ensures var r, q := Run(h, EMPTY, es), QueueRun(map[], es);
            && Inv(h, r)
            && match Find(h, r, offset).1
               case Some(x) => x in q && q[x].mergeable && q[x].pos + q[x].sectors == offset
               case None => forall x :: x in q && q[x].mergeable ==> q[x].pos + q[x].sectors != offset
  {
    EmptyAgrees(h);
    RunAgrees(h, EMPTY, map[], es);
    var r := Run(h, EMPTY, es);
    hide Inv, Run, Legal, AllOnQueue, QueueRun, Hashed, Find;
    FindExactly(h, r, offset);
  }

  // ------------------------------------------------------------------- the code

  class Hash {
    const h: nat -> nat
    var s: Table

    constructor (h: nat -> nat)
      ensures this.h == h && s == EMPTY && Inv(h, s)
    {
      this.h := h;
      s := EMPTY;
    }

    /** elv_rqhash_add; the BUG_ON is the precondition. */
    method RqAdd(x: nat)
      requires Inv(h, s) && x in s.rqs && !Hashed(s, x)
      modifies this
      ensures old(|s.buckets|) == ENTRIES && s == Add(h, old(s), x) && Inv(h, s)
    {
      AddOk(h, s, x);
      var b := Bucket(h, EndOf(s.rqs[x]));
      s := s.(buckets := s.buckets[b := [x] + s.buckets[b]]);
    }

    /** A back merge: the request grows, and elv_merged_request rehashes it. */
    method BackMerged(x: nat, sectors: nat)
      requires Inv(h, s) && x in s.rqs
      modifies this
      ensures old(|s.buckets|) == ENTRIES && s == Appended(h, old(s), x, sectors) && Inv(h, s)
    {
      hide Inv, Del, Add;
      AllBuckets(h, s);
      AppendedOk(h, s, x, sectors);
      s := s.(rqs := s.rqs[x := s.rqs[x].(sectors := s.rqs[x].sectors + sectors)]);
      s := Del(s, x);
      s := Add(h, s, x);
    }

    /** elv_rqhash_find: along the bucket, dropping what cannot be merged. */
    method RqFind(offset: nat) returns (found: Option<nat>)
      requires Inv(h, s)
      modifies this
      ensures Inv(h, s) && old(|s.buckets|) == ENTRIES
      ensures found.Some? <==> exists x :: Hashed(old(s), x) && Wanted(s.rqs, x, offset)
      ensures found.Some? ==> Hashed(old(s), found.value) && Wanted(s.rqs, found.value, offset)
      ensures s.rqs == old(s.rqs) && forall x :: Hashed(old(s), x) && s.rqs[x].mergeable ==> Hashed(s, x)
    {
      ghost var was := s;
      FindExactly(h, s, offset);
      assert forall x :: x in s.buckets[Bucket(h, offset)] ==> x in s.rqs;
      hide Inv, Hashed, Wanted, Bucket;
      var b := Bucket(h, offset);
      var l := s.buckets[b];
      var kept, i := [], 0;
      found := None;
      FoundStart(s.rqs, l, offset);
      while i < |l|
        invariant i <= |l| && (forall x :: x in l ==> x in s.rqs) && s == was
        invariant found.None? && Found(s.rqs, l, offset, kept, i)
      {
        FoundNext(s.rqs, l, offset, kept, i);
        hide Found, Search;
        if !s.rqs[l[i]].mergeable {
          i := i + 1;
          continue;
        }
        if EndOf(s.rqs[l[i]]) == offset {
          found := Some(l[i]);
          break;
        }
        kept := kept + [l[i]];
        i := i + 1;
      }
      FoundEnd(s.rqs, l, offset, kept, i);
      s := s.(buckets := s.buckets[b := kept + l[i..]]);
    }
  }

  /** The search has kept `kept` of the first `i` requests. */
  ghost predicate Found(rqs: map<nat, Rq>, l: seq<nat>, offset: nat, kept: seq<nat>, i: nat)
    requires i <= |l| && forall x :: x in l ==> x in rqs
  {
    var (rest, found) := Search(rqs, l[i..], offset);
    Search(rqs, l, offset) == (kept + rest, found)
  }

  lemma FoundStart(rqs: map<nat, Rq>, l: seq<nat>, offset: nat)
    requires forall x :: x in l ==> x in rqs
    ensures Found(rqs, l, offset, [], 0)
  {
    assert l[0..] == l;
    var (rest, found) := Search(rqs, l, offset);
    assert [] + rest == rest;
  }

  lemma FoundNext(rqs: map<nat, Rq>, l: seq<nat>, offset: nat, kept: seq<nat>, i: nat)
    requires i < |l| && (forall x :: x in l ==> x in rqs) && Found(rqs, l, offset, kept, i)
    ensures if !rqs[l[i]].mergeable then Found(rqs, l, offset, kept, i + 1)
            else if EndOf(rqs[l[i]]) == offset then Search(rqs, l, offset) == (kept + l[i..], Some(l[i]))
            else Found(rqs, l, offset, kept + [l[i]], i + 1)
  {
    assert l[i..][1..] == l[i + 1..] && l[i..][0] == l[i];
    var (rest, found) := Search(rqs, l[i + 1..], offset);
    assert kept + ([l[i]] + rest) == (kept + [l[i]]) + rest;
  }

  lemma FoundEnd(rqs: map<nat, Rq>, l: seq<nat>, offset: nat, kept: seq<nat>, i: nat)
    requires i <= |l| && (forall x :: x in l ==> x in rqs)
    requires i == |l| ==> Found(rqs, l, offset, kept, i)
    ensures i == |l| ==> Search(rqs, l, offset) == (kept + l[i..], None)
  {
  }
}

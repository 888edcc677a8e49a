/** Counting segments and mapping them to a scatterlist (block/blk-merge.c). Both
    walk the vectors of a request and start a new segment where they must; the
    count must leave room for the map. */
module Segments {
  import opened Lists

  /** `len` bytes at physical address `addr`. */
  datatype Vec = Vec(addr: nat, len: nat)

  /** Queue limits. `within` says that two adjacent vectors lie on one side of
      the segment boundary; pages above `bouncePfn` may be bounced. */
  datatype Queue = Queue(cluster: bool, maxSize: nat, maxSegments: nat, maxSectors: nat,
                         bouncePfn: nat, within: (Vec, Vec) -> bool)

  const PAGE_SIZE := 4096

  predicate High(q: Queue, v: Vec) {
    v.addr / PAGE_SIZE > q.bouncePfn
  }

  /** `v` may continue the segment that `p` ends, apart from its size. */
  predicate Joins(q: Queue, p: Vec, v: Vec) {
    q.cluster && p.addr + p.len == v.addr && q.within(p, v)
  }

  /** Whether a segment of `size` bytes ending with `prev` must not take `v`. A
      count also keeps pages that may be bounced apart. */
  predicate Cuts(q: Queue, counting: bool, prev: Option<Vec>, size: nat, v: Vec) {
    || prev.None? || !Joins(q, prev.value, v) || size + v.len > q.maxSize
    || (counting && (High(q, v) || High(q, prev.value)))
  }

  /** The segments started by `vs` after `size` bytes ending with `prev`. */
  function Started(q: Queue, counting: bool, prev: Option<Vec>, size: nat, vs: seq<Vec>): nat
    decreases |vs|
  {
    if vs == [] then 0
    else if Cuts(q, counting, prev, size, vs[0]) then 1 + Started(q, counting, Some(vs[0]), vs[0].len, vs[1..])
    else Started(q, counting, Some(vs[0]), size + vs[0].len, vs[1..])
  }

  function Segs(q: Queue, counting: bool, vs: seq<Vec>): nat {
    Started(q, counting, None, 0, vs)
  }

  // ------------------------------------------------------- any other way to cut

  /** Two vectors may lie in one segment, whatever its length: they are adjacent
      in memory on one side of the segment boundary, and segments may be joined at
      all; for a count, no page of theirs may be bounced. */
  ghost predicate Together(q: Queue, counting: bool, p: Vec, v: Vec) {
    && q.cluster && v.addr == p.addr + p.len && q.within(p, v)
    && (counting ==> p.addr / PAGE_SIZE <= q.bouncePfn && v.addr / PAGE_SIZE <= q.bouncePfn)
  }

  /** A way to cut: `cut[i]` starts a segment at `vs[i]`. It is allowed if the
      vectors of a segment belong together and are not too long in all; a single
      vector may be as long as it is. */
  ghost predicate Allowed(q: Queue, counting: bool, prev: Option<Vec>, size: nat, vs: seq<Vec>, cut: seq<bool>)
    decreases |vs|
  {
    && |cut| == |vs|
    && (vs != [] ==>
          if cut[0] then Allowed(q, counting, Some(vs[0]), vs[0].len, vs[1..], cut[1..])
          else && prev.Some? && Together(q, counting, prev.value, vs[0]) && size + vs[0].len <= q.maxSize
               && Allowed(q, counting, Some(vs[0]), size + vs[0].len, vs[1..], cut[1..]))
  }

  ghost function Pieces(cut: seq<bool>): nat {
    if cut == [] then 0 else (if cut[0] then 1 else 0) + Pieces(cut[1..])
  }

  /** A fuller segment starts at most one segment more, and never fewer. */
  lemma {:induction false} FullerStartsMore(q: Queue, counting: bool, prev: Option<Vec>, a: nat, b: nat, vs: seq<Vec>)
    requires a <= b
    ensures Started(q, counting, prev, a, vs) <= Started(q, counting, prev, b, vs)
            <= Started(q, counting, prev, a, vs) + 1
    decreases |vs|
  {
    if vs != [] {
      var v := vs[0];
      if !Cuts(q, counting, prev, a, v) {
        if Cuts(q, counting, prev, b, v) {
          FullerStartsMore(q, counting, Some(v), v.len, a + v.len, vs[1..]);
        } else {
          FullerStartsMore(q, counting, Some(v), a + v.len, b + v.len, vs[1..]);
        }
      }
    }
  }

  /** Both walks are greedy, and no allowed way to cut makes fewer segments. */
  lemma {:induction false} GreedyLeast(q: Queue, counting: bool, prev: Option<Vec>, a: nat, b: nat, vs: seq<Vec>,
                                       cut: seq<bool>)
    requires a <= b && Allowed(q, counting, prev, b, vs, cut)
    ensures Started(q, counting, prev, a, vs) <= Pieces(cut)
    decreases |vs|
  {
    if vs != [] {
      var v := vs[0];
      if cut[0] {
        GreedyLeast(q, counting, Some(v), v.len, v.len, vs[1..], cut[1..]);
        FullerStartsMore(q, counting, Some(v), v.len, a + v.len, vs[1..]);
      } else {
        GreedyLeast(q, counting, Some(v), a + v.len, b + v.len, vs[1..], cut[1..]);
      }
    }
  }

  /** The cuts a walk makes. */
  ghost function CutsOf(q: Queue, counting: bool, prev: Option<Vec>, size: nat, vs: seq<Vec>): seq<bool>
    decreases |vs|
  {
    if vs == [] then []
    else if Cuts(q, counting, prev, size, vs[0]) then [true] + CutsOf(q, counting, Some(vs[0]), vs[0].len, vs[1..])
    else [false] + CutsOf(q, counting, Some(vs[0]), size + vs[0].len, vs[1..])
  }

  lemma {:induction false} CutsAllowed(q: Queue, counting: bool, prev: Option<Vec>, size: nat, vs: seq<Vec>)
    ensures var cut := CutsOf(q, counting, prev, size, vs);
            Allowed(q, counting, prev, size, vs, cut) && Pieces(cut) == Started(q, counting, prev, size, vs)
    decreases |vs|
  {
    if vs != [] {
      var v := vs[0];
      if Cuts(q, counting, prev, size, v) {
        CutsAllowed(q, counting, Some(v), v.len, vs[1..]);
      } else {
        CutsAllowed(q, counting, Some(v), size + v.len, vs[1..]);
      }
      var cut := CutsOf(q, counting, prev, size, vs);
      assert cut[1..] == CutsOf(q, counting, Some(v), if cut[0] then v.len else size + v.len, vs[1..]);
    }
  }

  /** So the number of segments is the least possible. */
  lemma SegsLeast(q: Queue, counting: bool, vs: seq<Vec>)
    ensures exists cut :: Allowed(q, counting, None, 0, vs, cut) && Pieces(cut) == Segs(q, counting, vs)
    ensures forall cut :: Allowed(q, counting, None, 0, vs, cut) ==> Segs(q, counting, vs) <= Pieces(cut)
  {
    CutsAllowed(q, counting, None, 0, vs);
    forall cut | Allowed(q, counting, None, 0, vs, cut)
      ensures Segs(q, counting, vs) <= Pieces(cut)
    {
      GreedyLeast(q, counting, None, 0, 0, vs, cut);
    }
  }

  lemma {:induction false} CountAllowed(q: Queue, prev: Option<Vec>, size: nat, vs: seq<Vec>, cut: seq<bool>)
    requires Allowed(q, true, prev, size, vs, cut)
    ensures Allowed(q, false, prev, size, vs, cut)
    decreases |vs|
  {
    if vs != [] {
      CountAllowed(q, Some(vs[0]), if cut[0] then vs[0].len else size + vs[0].len, vs[1..], cut[1..]);
    }
  }

  /** So counting never comes out below mapping. */
  lemma MapsWithinCount(q: Queue, vs: seq<Vec>)
    ensures Segs(q, false, vs) <= Segs(q, true, vs)
  {
    CutsAllowed(q, true, None, 0, vs);
    CountAllowed(q, None, 0, vs, CutsOf(q, true, None, 0, vs));
    GreedyLeast(q, false, None, 0, 0, vs, CutsOf(q, true, None, 0, vs));
  }

  lemma {:induction false} PiecesJoin(cut: seq<bool>, more: seq<bool>)
    ensures Pieces(cut + more) == Pieces(cut) + Pieces(more)
  {
    if cut == [] {
      assert cut + more == more;
    } else {
      assert (cut + more)[1..] == cut[1..] + more;
      PiecesJoin(cut[1..], more);
    }
  }

  lemma {:induction false} AllowedJoin(q: Queue, prev: Option<Vec>, size: nat, vs: seq<Vec>, cut: seq<bool>,
                                       ws: seq<Vec>, more: seq<bool>)
    requires Allowed(q, false, prev, size, vs, cut) && Allowed(q, false, None, 0, ws, more)
    ensures Allowed(q, false, prev, size, vs + ws, cut + more) && Pieces(cut + more) == Pieces(cut) + Pieces(more)
    decreases |vs|
  {
    hide Together, Pieces;
    PiecesJoin(cut, more);
    if vs == [] {
      assert vs + ws == ws && cut + more == more;
      if ws != [] {
        assert more[0];
      }
    } else {
      assert (vs + ws)[1..] == vs[1..] + ws && (cut + more)[1..] == cut[1..] + more;
      AllowedJoin(q, Some(vs[0]), if cut[0] then vs[0].len else size + vs[0].len, vs[1..], cut[1..], ws, more);
    }
  }

  /** Mapping two lists together takes no more segments than mapping each. */
  lemma MapsTogether(q: Queue, vs: seq<Vec>, ws: seq<Vec>)
    ensures Segs(q, false, vs + ws) <= Segs(q, false, vs) + Segs(q, false, ws)
  {
    CutsAllowed(q, false, None, 0, vs);
    CutsAllowed(q, false, None, 0, ws);
    var cut, more := CutsOf(q, false, None, 0, vs), CutsOf(q, false, None, 0, ws);
    AllowedJoin(q, None, 0, vs, cut, ws, more);
    GreedyLeast(q, false, None, 0, 0, vs + ws, cut + more);
  }

  // ------------------------------------------------------------------- the code

  /** All vectors of a chain of bios. */
  function Flat(bios: seq<seq<Vec>>): seq<Vec> {
    if bios == [] then [] else bios[0] + Flat(bios[1..])
  }

  /** What is left to walk at vector `k` of bio `i`. */
  ghost function Ahead(bios: seq<seq<Vec>>, i: nat, k: nat): seq<Vec>
    requires i < |bios| && k <= |bios[i]|
  {
    bios[i][k..] + Flat(bios[i + 1..])
  }

  lemma AheadStep(bios: seq<seq<Vec>>, i: nat, k: nat)
    requires i < |bios| && k < |bios[i]|
    ensures Ahead(bios, i, k) != [] && Ahead(bios, i, k)[0] == bios[i][k]
    ensures Ahead(bios, i, k)[1..] == Ahead(bios, i, k + 1)
  {
    assert bios[i][k..][1..] == bios[i][k + 1..];
  }

  lemma AheadEnds(bios: seq<seq<Vec>>, i: nat)
    requires i < |bios|
    ensures Ahead(bios, i, 0) == Flat(bios[i..]) && Ahead(bios, i, |bios[i]|) == Flat(bios[i + 1..])
  {
    assert bios[i..][1..] == bios[i + 1..] && bios[i..][0] == bios[i];
    assert bios[i][0..] == bios[i] && bios[i][|bios[i]|..] == [];
  }

  /** __blk_recalc_rq_segments. */
  method Recount(q: Queue, bios: seq<seq<Vec>>) returns (n: nat)
    ensures n == Segs(q, true, Flat(bios))
  {
    hide Flat, Ahead;
    n := 0;
    var prev: Option<Vec>, highPrev, size: nat := None, true, 0;
    var i := 0;
    assert bios[0..] == bios;
    while i < |bios|
      invariant i <= |bios| && highPrev == (prev.None? || High(q, prev.value))
      invariant n + Started(q, true, prev, size, Flat(bios[i..])) == Segs(q, true, Flat(bios))
    {
      AheadEnds(bios, i);
      var k := 0;
      while k < |bios[i]|
        invariant k <= |bios[i]| && highPrev == (prev.None? || High(q, prev.value))
        invariant n + Started(q, true, prev, size, Ahead(bios, i, k)) == Segs(q, true, Flat(bios))
      {
        AheadStep(bios, i, k);
        var v := bios[i][k];
        var high := High(q, v);
        if high || highPrev || !q.cluster || size + v.len > q.maxSize
           || prev.value.addr + prev.value.len != v.addr || !q.within(prev.value, v)
        {
          n, prev, size, highPrev := n + 1, Some(v), v.len, high;
        } else {
          size, prev := size + v.len, Some(v);
        }
        k := k + 1;
      }
      i := i + 1;
    }
    NothingAhead(bios);
  }

  lemma NothingAhead(bios: seq<seq<Vec>>)
    ensures Flat(bios[|bios|..]) == []
  {
  }

  /** The physical addresses of the bytes, in order. */
  ghost function Places(vs: seq<Vec>): seq<nat> {
    if vs == [] then [] else seq(vs[0].len, j requires 0 <= j => vs[0].addr + j) + Places(vs[1..])
  }

  lemma {:induction false} PlacesJoin(a: seq<Vec>, b: seq<Vec>)
    ensures Places(a + b) == Places(a) + Places(b)
  {
    if a == [] {
      assert a + b == b;
    } else {
      assert (a + b)[1..] == a[1..] + b;
      PlacesJoin(a[1..], b);
    }
  }

  lemma PlacesOne(v: Vec)
    ensures Places([v]) == seq(v.len, j requires 0 <= j => v.addr + j)
  {
    assert [v][1..] == [];
  }

  /** Lengthening the last entry by an adjacent vector adds that vector's bytes. */
  lemma PlacesGrow(sgs: seq<Vec>, v: Vec)
    requires sgs != [] && sgs[|sgs| - 1].addr + sgs[|sgs| - 1].len == v.addr
    ensures var last := sgs[|sgs| - 1];
            Places(sgs[|sgs| - 1 := Vec(last.addr, last.len + v.len)]) == Places(sgs) + Places([v])
  {
    var last, front := sgs[|sgs| - 1], sgs[..|sgs| - 1];
    var long := Vec(last.addr, last.len + v.len);
    PlacesJoin(front, [last]);
    PlacesJoin(front, [long]);
    PlacesOne(last);
    PlacesOne(long);
    PlacesOne(v);
    assert sgs == front + [last] && sgs[|sgs| - 1 := long] == front + [long];
    assert Places([long]) == Places([last]) + Places([v]);
  }

  function AsSeq(v: Option<Vec>): seq<Vec> {
    if v.Some? then [v.value] else []
  }

  /** The vectors of each segment, added up; `open` is the segment begun. */
  ghost function Entries(open: Option<Vec>, vs: seq<Vec>, cut: seq<bool>): seq<Vec>
    requires |cut| == |vs|
    decreases |vs|
  {
    if vs == [] then AsSeq(open)
    else if cut[0] || open.None? then AsSeq(open) + Entries(Some(vs[0]), vs[1..], cut[1..])
    else Entries(Some(Vec(open.value.addr, open.value.len + vs[0].len)), vs[1..], cut[1..])
  }

  ghost function LastOf(sgs: seq<Vec>): Option<Vec> {
    if sgs == [] then None else Some(sgs[|sgs| - 1])
  }

  function LenOf(v: Option<Vec>): nat {
    if v.Some? then v.value.len else 0
  }

  lemma {:induction false} CutsLength(q: Queue, counting: bool, prev: Option<Vec>, size: nat, vs: seq<Vec>)
    ensures |CutsOf(q, counting, prev, size, vs)| == |vs|
    decreases |vs|
  {
    CutsAllowed(q, counting, prev, size, vs);
  }

  /** The entries of the map that ends with `last`, of the segment after `prev`. */
  ghost function Mapped(q: Queue, prev: Option<Vec>, last: Option<Vec>, left: seq<Vec>): seq<Vec> {
    var cut := CutsOf(q, false, prev, LenOf(last), left);
    CutsLength(q, false, prev, LenOf(last), left);
    Entries(last, left, cut)
  }

  lemma MappedStep(q: Queue, prev: Option<Vec>, last: Option<Vec>, left: seq<Vec>)
    requires left != [] && (prev.None? <==> last.None?)
    ensures var v := left[0];
            Mapped(q, prev, last, left) ==
            if Cuts(q, false, prev, LenOf(last), v) then AsSeq(last) + Mapped(q, Some(v), Some(v), left[1..])
            else Mapped(q, Some(v), if last.Some? then Some(Vec(last.value.addr, last.value.len + v.len)) else None,
                        left[1..])
  {
    var v, cut := left[0], CutsOf(q, false, prev, LenOf(last), left);
    CutsLength(q, false, prev, LenOf(last), left);
    assert cut[1..] == CutsOf(q, false, Some(v), if cut[0] then v.len else LenOf(last) + v.len, left[1..]);
  }

  /** The map so far: `sgs` covers the bytes before `left`, its last entry ends
      where `prev` does, and going on leads to the entries of the walk's cuts. */
  ghost predicate Mapping(q: Queue, all: seq<Vec>, prev: Option<Vec>, sgs: seq<Vec>, left: seq<Vec>) {
    && (prev.None? <==> sgs == [])
    && (sgs != [] ==> var s := sgs[|sgs| - 1]; s.addr + s.len == prev.value.addr + prev.value.len)
    && |sgs| + Started(q, false, prev, LenOf(LastOf(sgs)), left) == Segs(q, false, all)
    && (if sgs == [] then [] else sgs[..|sgs| - 1]) + Mapped(q, prev, LastOf(sgs), left) == Mapped(q, None, None, all)
    && Places(sgs) + Places(left) == Places(all)
    && forall s :: s in sgs ==> s.len <= q.maxSize || s in all
  }

  /** The first vector ahead moves to the covered side. */
  lemma PlacesShift(left: seq<Vec>, before: seq<nat>)
    requires left != []
    ensures before + Places([left[0]]) + Places(left[1..]) == before + Places(left)
  {
    hide Places;
    PlacesJoin([left[0]], left[1..]);
    assert [left[0]] + left[1..] == left;
    Regroup(before, Places([left[0]]), Places(left[1..]));
  }

  lemma MapNew(q: Queue, all: seq<Vec>, prev: Option<Vec>, sgs: seq<Vec>, left: seq<Vec>)
    requires Mapping(q, all, prev, sgs, left) && left != [] && left[0] in all
    requires Cuts(q, false, prev, LenOf(LastOf(sgs)), left[0])
    ensures Mapping(q, all, Some(left[0]), sgs + [left[0]], left[1..])
  {
    hide Places, Cuts, Mapped;
    PlacesJoin(sgs, [left[0]]);
    PlacesShift(left, Places(sgs));
    var sgs' := sgs + [left[0]];
    assert sgs'[|sgs'| - 1] == left[0] && sgs'[..|sgs'| - 1] == sgs;
    MappedStep(q, prev, LastOf(sgs), left);
    var rest := Mapped(q, Some(left[0]), Some(left[0]), left[1..]);
    if sgs != [] {
      Regroup(sgs[..|sgs| - 1], AsSeq(LastOf(sgs)), rest);
      assert sgs[..|sgs| - 1] + AsSeq(LastOf(sgs)) == sgs;
    }
  }

  lemma MapJoin(q: Queue, all: seq<Vec>, prev: Option<Vec>, sgs: seq<Vec>, left: seq<Vec>)
    requires Mapping(q, all, prev, sgs, left) && left != [] && sgs != []
    requires !Cuts(q, false, prev, sgs[|sgs| - 1].len, left[0])
    ensures var s := sgs[|sgs| - 1];
            Mapping(q, all, Some(left[0]), sgs[|sgs| - 1 := Vec(s.addr, s.len + left[0].len)], left[1..])
  {
    hide Places, Mapped;
    PlacesGrow(sgs, left[0]);
    PlacesShift(left, Places(sgs));
    var s := sgs[|sgs| - 1];
    var sgs' := sgs[|sgs| - 1 := Vec(s.addr, s.len + left[0].len)];
    assert sgs'[|sgs'| - 1] == Vec(s.addr, s.len + left[0].len) && sgs'[..|sgs| - 1] == sgs[..|sgs| - 1];
    MappedStep(q, prev, LastOf(sgs), left);
  }

  lemma MapStart(q: Queue, all: seq<Vec>)
    ensures Mapping(q, all, None, [], all)
  {
  }

  /** The entries are the segments of an allowed way to cut. */
  ghost predicate CutInto(q: Queue, vs: seq<Vec>, sgs: seq<Vec>) {
    exists cut :: Allowed(q, false, None, 0, vs, cut) && sgs == Entries(None, vs, cut)
  }

  lemma MapEnd(q: Queue, all: seq<Vec>, prev: Option<Vec>, sgs: seq<Vec>)
    requires Mapping(q, all, prev, sgs, [])
    ensures |sgs| == Segs(q, false, all) && Places(sgs) == Places(all) && CutInto(q, all, sgs)
    ensures forall s :: s in sgs ==> s.len <= q.maxSize || s in all
  {
    CutsAllowed(q, false, None, 0, all);
    var cut := CutsOf(q, false, None, 0, all);
    assert sgs == Entries(None, all, cut);
  }

  lemma {:induction false} InFlat(bios: seq<seq<Vec>>, i: nat, k: nat)
    requires i < |bios| && k < |bios[i]|
    ensures bios[i][k] in Flat(bios)
  {
    if i == 0 {
      assert bios[0][k] in bios[0];
    } else {
      InFlat(bios[1..], i - 1, k);
    }
  }

  /** blk_rq_map_sg up to padding and draining: the entries cover exactly the
      bytes of the request, in order, and none is longer than the limit unless it
      is a single vector. */
  method MapSg(q: Queue, bios: seq<seq<Vec>>) returns (sgs: seq<Vec>)
    ensures |sgs| == Segs(q, false, Flat(bios)) && Places(sgs) == Places(Flat(bios)) && CutInto(q, Flat(bios), sgs)
    ensures forall s :: s in sgs ==> s.len <= q.maxSize || s in Flat(bios)
  {
    hide Flat, Ahead, Mapping, Places, Segs, CutInto;
    ghost var all := Flat(bios);
    sgs := [];
    var prev: Option<Vec> := None;
    var i := 0;
    assert bios[0..] == bios;
    MapStart(q, all);
    while i < |bios|
      invariant i <= |bios| && Mapping(q, all, prev, sgs, Flat(bios[i..])) && (prev.None? <==> sgs == [])
    {
      AheadEnds(bios, i);
      var k := 0;
      while k < |bios[i]|
        invariant k <= |bios[i]| && Mapping(q, all, prev, sgs, Ahead(bios, i, k)) && (prev.None? <==> sgs == [])
      {
        AheadStep(bios, i, k);
        InFlat(bios, i, k);
        var v := bios[i][k];
        if prev.Some? && q.cluster && sgs[|sgs| - 1].len + v.len <= q.maxSize
           && prev.value.addr + prev.value.len == v.addr && q.within(prev.value, v)
        {
          MapJoin(q, all, prev, sgs, Ahead(bios, i, k));
          var sg := sgs[|sgs| - 1];
          sgs := sgs[|sgs| - 1 := Vec(sg.addr, sg.len + v.len)];
        } else {
          MapNew(q, all, prev, sgs, Ahead(bios, i, k));
          sgs := sgs + [v];
        }
        prev := Some(v);
        k := k + 1;
      }
      i := i + 1;
    }
    NothingAhead(bios);
    MapEnd(q, all, prev, sgs);
  }

  // ------------------------------------------------------------------- requests

  function Length(vs: seq<Vec>): nat {
    if vs == [] then 0 else vs[0].len + Length(vs[1..])
  }

  lemma {:induction false} FlatSnoc(bios: seq<seq<Vec>>, bio: seq<Vec>)
    ensures Flat(bios + [bio]) == Flat(bios) + bio
  {
    if bios == [] {
      assert [bio][1..] == [] && bios + [bio] == [bio];
    } else {
      assert (bios + [bio])[1..] == bios[1..] + [bio];
      FlatSnoc(bios[1..], bio);
    }
  }

  /** The count leaves room for the map. */
  ghost predicate Room(q: Queue, bios: seq<seq<Vec>>, n: nat) {
    Segs(q, false, Flat(bios)) <= n
  }

  lemma RoomOne(q: Queue, bio: seq<Vec>)
    ensures Flat([bio]) == bio && Room(q, [bio], Segs(q, true, bio))
  {
    assert [bio][1..] == [];
    MapsWithinCount(q, bio);
  }

  lemma RoomMerged(q: Queue, bios: seq<seq<Vec>>, n: nat, bio: seq<Vec>)
    requires Room(q, bios, n)
    ensures Room(q, bios + [bio], n + Segs(q, true, bio)) && Room(q, [bio] + bios, n + Segs(q, true, bio))
  {
    FlatSnoc(bios, bio);
    assert ([bio] + bios)[1..] == bios;
    MapsWithinCount(q, bio);
    MapsTogether(q, Flat(bios), bio);
    MapsTogether(q, bio, Flat(bios));
  }

  class Request {
    const q: Queue
    var bios: seq<seq<Vec>>
    var segments: nat
    var noMerge: bool

    ghost predicate Valid()
      reads this
    {
      Room(q, bios, segments)
    }

    /** blk_rq_bio_prep. */
    constructor (q: Queue, bio: seq<Vec>)
      ensures Valid() && this.q == q && bios == [bio] && !noMerge && segments == Segs(q, true, bio)
    {
      var n := Recount(q, [bio]);
      RoomOne(q, bio);
      this.q, bios, segments, noMerge := q, [bio], n, false;
    }

    /** The checks of ll_back_merge_fn, ll_front_merge_fn and ll_new_hw_segment:
        too many sectors or segments forbid all merging with the request. */
    method NewSegment(bio: seq<Vec>) returns (ok: bool)
      modifies this`segments, this`noMerge
      ensures ok == (&& Length(Flat(bios)) / 512 + Length(bio) / 512 <= q.maxSectors
                     && old(segments) + Segs(q, true, bio) <= q.maxSegments)
      ensures noMerge == (old(noMerge) || !ok)
      ensures segments == old(segments) + if ok then Segs(q, true, bio) else 0
    {
      RoomOne(q, bio);
      if Length(Flat(bios)) / 512 + Length(bio) / 512 > q.maxSectors {
        noMerge := true;
        return false;
      }
      var n := Recount(q, [bio]);
      if segments + n > q.maxSegments {
        noMerge := true;
        return false;
      }
      segments := segments + n;
      return true;
    }

    /** bio_attempt_back_merge with ll_back_merge_fn. */
    method BackMerge(bio: seq<Vec>) returns (ok: bool)
      requires Valid()
      modifies this
      ensures Valid() && noMerge == (old(noMerge) || !ok)
      ensures ok == (&& Length(Flat(old(bios))) / 512 + Length(bio) / 512 <= q.maxSectors
                     && old(segments) + Segs(q, true, bio) <= q.maxSegments)
      ensures segments == old(segments) + if ok then Segs(q, true, bio) else 0
      ensures bios == old(bios) + (if ok then [bio] else [])
    {
      RoomMerged(q, bios, segments, bio);
      ok := NewSegment(bio);
      if ok {
        bios := bios + [bio];
      }
    }

    /** bio_attempt_front_merge with ll_front_merge_fn. */
    method FrontMerge(bio: seq<Vec>) returns (ok: bool)
      requires Valid()
      modifies this
      ensures Valid() && noMerge == (old(noMerge) || !ok)
      ensures ok == (&& Length(Flat(old(bios))) / 512 + Length(bio) / 512 <= q.maxSectors
                     && old(segments) + Segs(q, true, bio) <= q.maxSegments)
      ensures segments == old(segments) + if ok then Segs(q, true, bio) else 0
      ensures bios == (if ok then [bio] else []) + old(bios)
    {
      RoomMerged(q, bios, segments, bio);
      ok := NewSegment(bio);
      if ok {
        bios := [bio] + bios;
      }
    }

    /** blk_recalc_rq_segments, when a completion has left only `rest`. */
    method Recalc(rest: seq<seq<Vec>>)
      modifies this
      ensures Valid() && bios == rest && segments == Segs(q, true, Flat(rest)) && noMerge == old(noMerge)
    {
      MapsWithinCount(q, Flat(rest));
      bios := rest;
      var n := Recount(q, bios);
      segments := n;
    }

    /** Whatever merges and completions came before, the scatterlist needs at most
        `segments` entries. */
    method Map() returns (sgs: seq<Vec>)
      requires Valid()
      ensures |sgs| <= segments && Places(sgs) == Places(Flat(bios)) && CutInto(q, Flat(bios), sgs)
    {
      sgs := MapSg(q, bios);
    }
  }
}

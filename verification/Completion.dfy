/** Partial completion of a request (block/blk-core.c: blk_update_request and
    req_bio_endio). A request carries a chain of bios, a bio a list of vectors;
    completing some bytes consumes them across both levels. */
module Completion {
  import opened Lists

  /** A vector: `len` bytes of a page from `off`. */
  datatype Vec = Vec(page: nat, off: nat, len: nat)

  /** A bio as the rest of the block layer sees it: the bytes still to do, the
      sector they start at, whether it is up to date, and the vectors left. */
  datatype Bio = Bio(id: nat, size: nat, sector: nat, good: bool, vecs: seq<Vec>)

  // ------------------------------------------------------------------ the bytes

  /** The places of the bytes of a vector, in order. */
  function VecBytes(v: Vec): seq<(nat, nat)> {
    seq(v.len, i requires 0 <= i => (v.page, v.off + i))
  }

  function Flat(vecs: seq<Vec>): seq<(nat, nat)> {
    if vecs == [] then [] else VecBytes(vecs[0]) + Flat(vecs[1..])
  }

  /** The bytes of a request still to do. */
  function Bytes(bios: seq<Bio>): seq<(nat, nat)> {
    if bios == [] then [] else Flat(bios[0].vecs) + Bytes(bios[1..])
  }

  function Total(bios: seq<Bio>): nat {
    if bios == [] then 0 else bios[0].size + Total(bios[1..])
  }

  /** The size of a bio is what its vectors hold. */
  predicate BioOk(b: Bio) {
    b.size == |Flat(b.vecs)| && forall v :: v in b.vecs ==> v.len > 0
  }

  predicate ChainOk(bios: seq<Bio>) {
    forall b :: b in bios ==> BioOk(b)
  }

  // ------------------------------------------------------------ what is left over

  /** The vectors left after `n` bytes. */
  function SkipVecs(vecs: seq<Vec>, n: nat): seq<Vec> {
    if vecs == [] || n == 0 then vecs
    else if vecs[0].len <= n then SkipVecs(vecs[1..], n - vecs[0].len)
    else [vecs[0].(off := vecs[0].off + n, len := vecs[0].len - n)] + vecs[1..]
  }

  /** A bio with `n` of its bytes done, well or with an error. */
  function Advance(b: Bio, n: nat, ok: bool): Bio
    requires n <= b.size
  {
    b.(size := b.size - n, sector := b.sector + n / 512, good := b.good && ok, vecs := SkipVecs(b.vecs, n))
  }

  /** The bios left after `n` bytes: those that fit are ended, and a bio that
      starts exactly where the bytes end is left alone. */
  function Rest(bios: seq<Bio>, n: nat, ok: bool): seq<Bio> {
    if bios == [] then []
    else if n >= bios[0].size then
      (if n == bios[0].size then bios[1..] else Rest(bios[1..], n - bios[0].size, ok))
    else if n == 0 then bios
    else [Advance(bios[0], n, ok)] + bios[1..]
  }

  /** How many bios are ended. */
  function Ends(bios: seq<Bio>, n: nat): nat {
    if bios == [] || n < bios[0].size then 0
    else if n == bios[0].size then 1 else 1 + Ends(bios[1..], n - bios[0].size)
  }

  lemma FlatNone()
    ensures Flat([]) == []
  {
  }

  lemma FlatOne(v: Vec, rest: seq<Vec>)
    ensures Flat([v] + rest) == VecBytes(v) + Flat(rest) && |VecBytes(v)| == v.len
  {
    assert ([v] + rest)[1..] == rest;
  }

  /** A vector cut after `n` bytes. */
  function Cut(v: Vec, n: nat): Vec
    requires n <= v.len
  {
    v.(off := v.off + n, len := v.len - n)
  }

  lemma CutBytes(v: Vec, n: nat)
    requires n <= v.len
    ensures VecBytes(Cut(v, n)) == VecBytes(v)[n..]
  {
  }

  /** Skipping into the first vector. */
  lemma SkipCut(v: Vec, rest: seq<Vec>, n: nat)
    requires n <= v.len
    ensures Flat([Cut(v, n)] + rest) == (VecBytes(v) + Flat(rest))[n..]
  {
    hide Flat, VecBytes;
    FlatOne(v, rest);
    FlatOne(Cut(v, n), rest);
    CutBytes(v, n);
    DropWithin(VecBytes(v), Flat(rest), n);
  }

  lemma {:induction false} SkipFlat(vecs: seq<Vec>, n: nat)
    requires n <= |Flat(vecs)| && forall v :: v in vecs ==> v.len > 0
    ensures Flat(SkipVecs(vecs, n)) == Flat(vecs)[n..]
    ensures forall v :: v in SkipVecs(vecs, n) ==> v.len > 0
  {
    hide Flat, VecBytes;
    if vecs == [] {
      FlatNone();
    } else if n > 0 {
      var v, rest := vecs[0], vecs[1..];
      assert vecs == [v] + rest;
      FlatOne(v, rest);
      if v.len <= n {
        SkipFlat(rest, n - v.len);
        DropPast(VecBytes(v), Flat(rest), n);
      } else {
        SkipCut(v, rest, n);
        assert SkipVecs(vecs, n) == [Cut(v, n)] + rest;
      }
    }
  }

  lemma {:induction false} TotalBytes(bios: seq<Bio>)
    requires ChainOk(bios)
    ensures Total(bios) == |Bytes(bios)|
  {
    if bios != [] {
      assert BioOk(bios[0]);
      TotalBytes(bios[1..]);
    }
  }

  lemma AdvanceOk(b: Bio, n: nat, ok: bool)
    requires BioOk(b) && n <= b.size
    ensures BioOk(Advance(b, n, ok)) && Flat(Advance(b, n, ok).vecs) == Flat(b.vecs)[n..]
  {
    SkipFlat(b.vecs, n);
  }

  /** Completing `n` bytes leaves exactly the bytes after the first `n`, in a
      well-formed chain. */
  lemma {:induction false} RestBytes(bios: seq<Bio>, n: nat, ok: bool)
    requires ChainOk(bios)
    ensures ChainOk(Rest(bios, n, ok))
    ensures Bytes(Rest(bios, n, ok)) == if n <= |Bytes(bios)| then Bytes(bios)[n..] else []
  {
    hide BioOk, Flat, Rest, Ends, Advance, Bytes;
    if bios == [] {
      RestNone(n, ok);
      BytesNone();
    } else {
      var b, rest := bios[0], bios[1..];
      assert b in bios;
      BytesStep(bios);
      RestStep(bios, n, ok);
      if n > b.size {
        RestBytes(rest, n - b.size, ok);
        if n <= |Bytes(bios)| {
          DropPast(Flat(b.vecs), Bytes(rest), n);
        }
      } else if 0 < n < b.size {
        AdvanceOk(b, n, ok);
        BytesOne(Advance(b, n, ok), rest);
        DropWithin(Flat(b.vecs), Bytes(rest), n);
      } else if n == b.size {
        DropPast(Flat(b.vecs), Bytes(rest), n);
      }
    }
  }

  lemma BytesNone()
    ensures Bytes([]) == []
  {
  }

  lemma BytesOne(b: Bio, rest: seq<Bio>)
    ensures Bytes([b] + rest) == Flat(b.vecs) + Bytes(rest)
  {
    assert ([b] + rest)[1..] == rest;
  }

  lemma BytesStep(bios: seq<Bio>)
    requires bios != [] && BioOk(bios[0])
    ensures Bytes(bios) == Flat(bios[0].vecs) + Bytes(bios[1..]) && |Flat(bios[0].vecs)| == bios[0].size
  {
  }

  function Prefix(bios: seq<Bio>, k: nat): nat
    requires k <= |bios|
  {
    Total(bios[..k])
  }

  lemma {:induction false} PrefixStep(bios: seq<Bio>, k: nat)
    requires 0 < k <= |bios|
    ensures Prefix(bios, k) == bios[0].size + Prefix(bios[1..], k - 1)
  {
    assert bios[..k][1..] == bios[1..][..k - 1];
  }

  /** The ended bios are the first ones, and exactly those all of whose bytes are
      among the `n`; an empty bio at the very end of the bytes is not reached
      unless it is the first. */
  lemma {:induction false} EndsExactly(bios: seq<Bio>, n: nat, k: nat)
    requires k < |bios|
    ensures Ends(bios, n) <= |bios|
    ensures k < Ends(bios, n) <==> Prefix(bios, k + 1) <= n && (k == 0 || Prefix(bios, k) < n)
  {
    PrefixStep(bios, k + 1);
    if k == 0 {
      assert Prefix(bios[1..], 0) == 0;
      if |bios| > 1 && n > bios[0].size {
        EndsExactly(bios[1..], n - bios[0].size, 0);
      }
    } else {
      PrefixStep(bios, k);
      if n > bios[0].size {
        EndsExactly(bios[1..], n - bios[0].size, k - 1);
      }
    }
  }

  /** What is left: the rest of the bio the bytes end in, and the bios behind it. */
  lemma {:induction false} RestShape(bios: seq<Bio>, n: nat, ok: bool)
    ensures var e := Ends(bios, n);
            && e <= |bios|
            && (e < |bios| ==> n <= Prefix(bios, e) + bios[e].size)
            && Rest(bios, n, ok) ==
               if e == |bios| then []
               else if n <= Prefix(bios, e) then bios[e..]
               else [Advance(bios[e], n - Prefix(bios, e), ok)] + bios[e + 1..]
  {
    if bios != [] && n >= bios[0].size {
      PrefixStep(bios, 1);
      if n > bios[0].size {
        RestShape(bios[1..], n - bios[0].size, ok);
        PrefixStep(bios, Ends(bios, n));
      }
    }
  }

  // -------------------------------------------------------------- two completions

  lemma {:induction false} SkipTwice(vecs: seq<Vec>, a: nat, b: nat)
    ensures SkipVecs(SkipVecs(vecs, a), b) == SkipVecs(vecs, a + b)
  {
    if vecs != [] && a > 0 {
      var v := vecs[0];
      if v.len <= a {
        SkipTwice(vecs[1..], a - v.len, b);
      } else {
        var r := SkipVecs(vecs, a);
        assert r[1..] == vecs[1..];
        assert a + b >= v.len ==> SkipVecs(vecs, a + b) == SkipVecs(vecs[1..], a + b - v.len);
      }
    }
  }

  lemma AdvanceTwice(x: Bio, a: nat, b: nat, ok: bool)
    requires a + b <= x.size && a % 512 == 0
    ensures Advance(Advance(x, a, ok), b, ok) == Advance(x, a + b, ok)
  {
    SkipTwice(x.vecs, a, b);
    hide SkipVecs;
  }

  /** The bios of file system requests hold whole sectors. */
  predicate WholeSectors(bios: seq<Bio>) {
    forall b :: b in bios ==> b.size % 512 == 0
  }

  /** Completing `a` and then `b` bytes is completing `a + b`, for sector
      multiples: the same bios end and the rest is the same. */
  lemma {:induction false} RestTwice(bios: seq<Bio>, a: nat, b: nat, ok: bool)
    requires WholeSectors(bios) && a % 512 == 0 && b > 0
    ensures Rest(Rest(bios, a, ok), b, ok) == Rest(bios, a + b, ok)
    ensures Ends(bios, a) + Ends(Rest(bios, a, ok), b) == Ends(bios, a + b)
  {
    hide Rest, Ends, Advance;
    if bios == [] {
      RestNone(a, ok);
      RestNone(b, ok);
      RestNone(a + b, ok);
    } else {
      var x := bios[0];
      RestStep(bios, a, ok);
      RestStep(bios, a + b, ok);
      if a > x.size {
        RestTwice(bios[1..], a - x.size, b, ok);
      } else if 0 < a < x.size {
        RestInside(x, bios[1..], a, b, ok);
        assert bios == [x] + bios[1..];
      }
    }
  }

  lemma RestNone(n: nat, ok: bool)
    ensures Rest([], n, ok) == [] && Ends([], n) == 0
  {
  }

  /** The four cases of a completion, by the first bio. */
  lemma RestStep(bios: seq<Bio>, n: nat, ok: bool)
    requires bios != []
    ensures var x, rest := bios[0], bios[1..];
            && (n > x.size ==> Rest(bios, n, ok) == Rest(rest, n - x.size, ok) &&
                               Ends(bios, n) == 1 + Ends(rest, n - x.size))
            && (n == x.size ==> Rest(bios, n, ok) == rest && Ends(bios, n) == 1)
            && (0 < n < x.size ==> Rest(bios, n, ok) == [Advance(x, n, ok)] + rest && Ends(bios, n) == 0)
            && (0 == n < x.size ==> Rest(bios, n, ok) == bios && Ends(bios, n) == 0)
  {
    hide Advance;
  }

  /** A second completion of a bio that was left in part. */
  lemma RestInside(x: Bio, rest: seq<Bio>, a: nat, b: nat, ok: bool)
    requires 0 < a < x.size && a % 512 == 0 && b > 0
    ensures var r, all := [Advance(x, a, ok)] + rest, [x] + rest;
            Rest(r, b, ok) == Rest(all, a + b, ok) && Ends(r, b) == Ends(all, a + b)
  {
    hide Rest, Ends;
    var r, all := [Advance(x, a, ok)] + rest, [x] + rest;
    assert r[1..] == rest && all[1..] == rest && r[0].size == x.size - a;
    RestStep(r, b, ok);
    RestStep(all, a + b, ok);
    if a + b < x.size {
      AdvanceTwice(x, a, b, ok);
    }
    hide Advance;
  }

  /** With `b` zero this holds exactly when what is left does not start with an
      empty bio: a completion of no bytes ends one. */
  lemma RestTwiceZero(bios: seq<Bio>, a: nat, ok: bool)
    ensures var r := Rest(bios, a, ok); Rest(r, 0, ok) == r <==> r == [] || r[0].size > 0
  {
  }

  // ---------------------------------------------------------------- the request

  /** `dataLen` is __data_len; `hasSector` is set for file system and discard
      requests, the only ones whose sector is kept up. */
  datatype Req = Req(bios: seq<Bio>, dataLen: nat, sector: nat, hasSector: bool)

  ghost predicate ReqOk(r: Req) {
    ChainOk(r.bios) && r.dataLen == Total(r.bios)
  }

  /** blk_update_request: the request afterwards and whether there is more to do. */
  ghost function Update(r: Req, n: nat, ok: bool): (Req, bool)
    requires ReqOk(r)
  {
    var rest := Rest(r.bios, n, ok);
    if r.bios == [] then (r, false)
    else if rest == [] then (r.(bios := [], dataLen := 0), false)
    else
      RestBytes(r.bios, n, ok);
      LeftOver(r.bios, n, ok);
      (r.(bios := rest, dataLen := r.dataLen - n, sector := r.sector + if r.hasSector then n / 512 else 0), true)
  }

  lemma {:induction false} LeftOver(bios: seq<Bio>, n: nat, ok: bool)
    requires Rest(bios, n, ok) != []
    ensures n <= Total(bios) && Total(Rest(bios, n, ok)) == Total(bios) - n
  {
    if n > bios[0].size {
      LeftOver(bios[1..], n - bios[0].size, ok);
    } else if 0 < n < bios[0].size {
      assert Rest(bios, n, ok)[1..] == bios[1..];
    }
  }

  /** blk_rq_cur_bytes: the length of the first segment. */
  function CurBytes(bios: seq<Bio>): nat {
    if bios == [] then 0 else if bios[0].vecs == [] then bios[0].size else bios[0].vecs[0].len
  }

  /** A request stays well formed: the "request botched" test, a request shorter
      than its first segment, never succeeds. */
  lemma UpdateOk(r: Req, n: nat, ok: bool)
    requires ReqOk(r)
    ensures var (r', more) := Update(r, n, ok);
            && ReqOk(r') && r'.dataLen >= CurBytes(r'.bios)
            && Bytes(r'.bios) == (if n <= |Bytes(r.bios)| then Bytes(r.bios)[n..] else [])
            && more == (r'.bios != [])
  {
    RestBytes(r.bios, n, ok);
    TotalBytes(r.bios);
    if Rest(r.bios, n, ok) != [] {
      LeftOver(r.bios, n, ok);
    }
    NotBotched(Update(r, n, ok).0);
  }

  lemma NotBotched(r: Req)
    requires ReqOk(r)
    ensures r.dataLen >= CurBytes(r.bios)
  {
    if r.bios != [] {
      var b := r.bios[0];
      assert BioOk(b);
      if b.vecs != [] {
        assert |VecBytes(b.vecs[0])| == b.vecs[0].len;
      }
    }
  }

  /** When no bio is empty, the answer is whether bytes remain. */
  lemma {:induction false} MoreIffBytes(bios: seq<Bio>, n: nat, ok: bool)
    requires forall b :: b in bios ==> b.size > 0
    ensures Rest(bios, n, ok) != [] <==> n < Total(bios)
  {
    if bios != [] {
      assert bios[0] in bios;
      if n > bios[0].size {
        MoreIffBytes(bios[1..], n - bios[0].size, ok);
      } else if n == bios[0].size && |bios| > 1 {
        assert bios[1] in bios;
      }
    }
  }

  /** Two completions of sector multiples are one, except that a request that
      finishes keeps the sector of the last completion that left something. */
  lemma UpdateTwice(r: Req, a: nat, b: nat, ok: bool)
    requires ReqOk(r) && WholeSectors(r.bios) && a % 512 == 0 && b > 0
    ensures ReqOk(Update(r, a, ok).0)
    ensures var (one, more1), (two, more2) := Update(r, a + b, ok), Update(Update(r, a, ok).0, b, ok);
            && more1 == more2 && two.bios == one.bios && two.dataLen == one.dataLen
            && (more1 ==> two == one)
  {
    UpdateOk(r, a, ok);
    RestTwice(r.bios, a, b, ok);
    if Rest(r.bios, a, ok) != [] {
      LeftOver(r.bios, a, ok);
    }
    assert (a + b) / 512 == a / 512 + b / 512;
    hide Rest, Bytes, Total, BioOk;
  }

  // ------------------------------------------------------------------- the code

  /** A bio with its whole vector table and the index of the first live vector. */
  datatype RawBio = RawBio(id: nat, size: nat, sector: nat, good: bool, idx: nat, table: seq<Vec>)

  function View(b: RawBio): Bio {
    Bio(b.id, b.size, b.sector, b.good, if b.idx <= |b.table| then b.table[b.idx..] else [])
  }

  function Views(bios: seq<RawBio>): (r: seq<Bio>)
    ensures |r| == |bios| && forall i :: 0 <= i < |r| ==> r[i] == View(bios[i])
  {
    seq(|bios|, i requires 0 <= i < |bios| => View(bios[i]))
  }

  /** How the first `k` bios report their end. */
  function Reports(bios: seq<Bio>, k: nat, ok: bool): seq<(nat, bool)>
    requires k <= |bios|
  {
    seq(k, i requires 0 <= i < k => (bios[i].id, bios[i].good && ok))
  }

  lemma {:induction false} SkipWhole(vecs: seq<Vec>, k: nat, n: nat)
    requires k <= |vecs| && n >= |Flat(vecs[..k])| && forall v :: v in vecs ==> v.len > 0
    ensures SkipVecs(vecs, n) == SkipVecs(vecs[k..], n - |Flat(vecs[..k])|)
  {
    if k > 0 {
      assert vecs[..k][1..] == vecs[1..][..k - 1];
      assert |VecBytes(vecs[0])| == vecs[0].len;
      SkipWhole(vecs[1..], k - 1, n - vecs[0].len);
      assert vecs[1..][k - 1..] == vecs[k..];
    }
  }

  lemma {:induction false} FlatSnoc(vecs: seq<Vec>, k: nat)
    requires k < |vecs|
    ensures Flat(vecs[..k + 1]) == Flat(vecs[..k]) + VecBytes(vecs[k])
  {
    if k == 0 {
      assert vecs[..1][1..] == [];
    } else {
      assert vecs[..k + 1][1..] == vecs[1..][..k] && vecs[..k][1..] == vecs[1..][..k - 1];
      FlatSnoc(vecs[1..], k - 1);
    }
  }

  lemma {:induction false} FlatSplit(vecs: seq<Vec>, k: nat)
    requires k <= |vecs|
    ensures Flat(vecs) == Flat(vecs[..k]) + Flat(vecs[k..])
  {
    if k > 0 {
      assert vecs[..k][1..] == vecs[1..][..k - 1] && vecs[1..][k - 1..] == vecs[k..];
      FlatSplit(vecs[1..], k - 1);
    } else {
      assert vecs[..0] == [] && vecs[0..] == vecs;
    }
  }

  /** The loop has ended `e` bios and walked over `k` vectors, `m` bytes, of the
      first bio of `chain`; `n` bytes of it and what follows are to do. */
  ghost predicate Midway(all: seq<Bio>, n0: nat, ok: bool, chain: seq<Bio>, e: nat, k: nat, m: nat, n: nat) {
    && ChainOk(chain) && Rest(chain, m + n, ok) == Rest(all, n0, ok) && Ends(all, n0) == e + Ends(chain, m + n)
    && (chain == [] ==> k == 0 && m == 0) && (k == 0 ==> m == 0)
    && (chain != [] ==> k <= |chain[0].vecs| && m == |Flat(chain[0].vecs[..k])|)
    && (k > 0 ==> n > 0 && m + n < chain[0].size)
  }

  /** The loop is over: what is left is `chain` with `m` bytes of its first bio
      done, that is `k` vectors and `n` bytes of the next. */
  ghost predicate Halted(all: seq<Bio>, n0: nat, ok: bool, chain: seq<Bio>, e: nat, k: nat, m: nat, n: nat) {
    && Ends(all, n0) == e
    && Rest(all, n0, ok) == (if chain == [] || m == 0 then chain else [Advance0(chain[0], m, ok)] + chain[1..])
    && (m > 0 ==> && chain != [] && m < chain[0].size && k < |chain[0].vecs| && n < chain[0].vecs[k].len
                  && SkipVecs(chain[0].vecs, m) == Trim(chain[0].vecs, k, n))
  }

  ghost function Advance0(b: Bio, m: nat, ok: bool): Bio {
    if m <= b.size then Advance(b, m, ok) else b
  }

  /** The vectors from the `k`-th, which has lost its first `n` bytes. */
  function Trim(vecs: seq<Vec>, k: nat, n: nat): seq<Vec>
    requires k < |vecs| && n <= vecs[k].len
  {
    [vecs[k].(off := vecs[k].off + n, len := vecs[k].len - n)] + vecs[k + 1..]
  }

  /** A whole bio is done. */
  lemma WholeBio(all: seq<Bio>, n0: nat, ok: bool, chain: seq<Bio>, e: nat, k: nat, m: nat, n: nat)
    requires Midway(all, n0, ok, chain, e, k, m, n) && chain != [] && n >= chain[0].size
    ensures k == 0
    ensures var n' := n - chain[0].size;
            if |chain| > 1 && n' == 0 then Halted(all, n0, ok, chain[1..], e + 1, 0, 0, 0)
            else Midway(all, n0, ok, chain[1..], e + 1, 0, 0, n')
  {
    hide BioOk;
    if |chain| > 1 {
      assert chain[1..][0].vecs[..0] == [];
    }
  }

  /** There is a next vector, within the bio. */
  lemma VecThere(b: Bio, k: nat, m: nat, n: nat)
    requires BioOk(b) && k <= |b.vecs| && m == |Flat(b.vecs[..k])| && m + n < b.size
    ensures k < |b.vecs| && 0 < b.vecs[k].len <= b.size && |Flat(b.vecs[..k + 1])| == m + b.vecs[k].len <= b.size
  {
    FlatSplit(b.vecs, k);
    if k < |b.vecs| {
      assert b.vecs[k] in b.vecs;
      FlatSnoc(b.vecs, k);
      FlatSplit(b.vecs, k + 1);
    }
    hide Flat;
    assert k == |b.vecs| ==> |b.vecs[k..]| == 0;
    FlatNone();
  }

  /** The bytes end inside vector `k`. */
  lemma SkipInside(vecs: seq<Vec>, k: nat, m: nat, n: nat)
    requires k < |vecs| && m == |Flat(vecs[..k])| && n < vecs[k].len && forall v :: v in vecs ==> v.len > 0
    ensures SkipVecs(vecs, m + n) == Trim(vecs, k, n)
  {
    SkipWhole(vecs, k, m + n);
    assert vecs[k..][0] == vecs[k] && vecs[k..][1..] == vecs[k + 1..];
  }

  lemma InsideHalts(all: seq<Bio>, n0: nat, ok: bool, chain: seq<Bio>, e: nat, k: nat, m: nat, n: nat)
    requires ChainOk(chain) && chain != [] && m + n < chain[0].size && k < |chain[0].vecs| && n < chain[0].vecs[k].len
    requires Rest(chain, m + n, ok) == Rest(all, n0, ok) && Ends(all, n0) == e + Ends(chain, m + n)
    requires m == |Flat(chain[0].vecs[..k])|
    ensures Halted(all, n0, ok, chain, e, k, m + n, n)
  {
    assert BioOk(chain[0]);
    SkipInside(chain[0].vecs, k, m, n);
    hide Flat, SkipVecs, Trim;
  }

  /** The next vector exists and is done, or the bytes end in it. */
  lemma NextVec(all: seq<Bio>, n0: nat, ok: bool, chain: seq<Bio>, e: nat, k: nat, m: nat, n: nat)
    requires Midway(all, n0, ok, chain, e, k, m, n) && chain != [] && n < chain[0].size
    ensures k < |chain[0].vecs| && 0 < chain[0].vecs[k].len <= chain[0].size
    ensures var len := chain[0].vecs[k].len;
            if len > n then Halted(all, n0, ok, chain, e, k, m + n, n)
            else if n == len then Halted(all, n0, ok, chain, e, k + 1, m + n, 0)
            else Midway(all, n0, ok, chain, e, k + 1, m + len, n - len)
  {
    hide Flat, Halted, Rest, Ends, BioOk;
    var b := chain[0];
    assert b in chain;
    VecThere(b, k, m, n);
    var len := b.vecs[k].len;
    if len > n {
      InsideHalts(all, n0, ok, chain, e, k, m, n);
    } else if n == len {
      VecThere(b, k + 1, m + n, 0);
      InsideHalts(all, n0, ok, chain, e, k + 1, m + n, 0);
    }
  }

  /** The log of ended bios; nothing is reported inside a flush sequence. */
  ghost function Logged(log: seq<(nat, bool)>, quiet: bool, bios: seq<Bio>, k: nat, ok: bool): seq<(nat, bool)>
    requires k <= |bios|
  {
    log + if quiet then [] else Reports(bios, k, ok)
  }

  lemma LoggedSnoc(log: seq<(nat, bool)>, quiet: bool, bios: seq<Bio>, k: nat, ok: bool)
    requires k < |bios|
    ensures Logged(log, quiet, bios, k + 1, ok)
            == Logged(log, quiet, bios, k, ok) + if quiet then [] else [(bios[k].id, bios[k].good && ok)]
  {
    assert Reports(bios, k + 1, ok) == Reports(bios, k, ok) + [(bios[k].id, bios[k].good && ok)];
  }

  lemma LoggedIs(quiet: bool, bios: seq<Bio>, k: nat, ok: bool)
    requires k <= |bios|
    ensures Logged([], quiet, bios, k, ok) == if quiet then [] else Reports(bios, k, ok)
  {
  }

  lemma LoggedNone(quiet: bool, bios: seq<Bio>, ok: bool)
    ensures Logged([], quiet, bios, 0, ok) == []
  {
  }

  lemma ViewsCons(bios: seq<RawBio>)
    requires bios != []
    ensures Views(bios) == [View(bios[0])] + Views(bios[1..])
  {
  }

  /** The bio with `m` bytes, `k` vectors and `n` bytes of the next one, done. */
  function Progress(b: RawBio, m: nat, k: nat, n: nat, ok: bool): RawBio
    requires m <= b.size && b.idx + k < |b.table| && n <= b.table[b.idx + k].len
  {
    var j := b.idx + k;
    var v := b.table[j];
    RawBio(b.id, b.size - m, b.sector + m / 512, b.good && ok, j, b.table[j := Vec(v.page, v.off + n, v.len - n)])
  }

  lemma ProgressView(b: RawBio, m: nat, k: nat, n: nat, ok: bool)
    requires m <= b.size && b.idx <= |b.table| && k < |View(b).vecs| && n < View(b).vecs[k].len
    requires SkipVecs(View(b).vecs, m) == Trim(View(b).vecs, k, n)
    ensures b.idx + k < |b.table| && n <= b.table[b.idx + k].len
    ensures View(Progress(b, m, k, n, ok)) == Advance(View(b), m, ok)
  {
    hide SkipVecs, Trim, View;
    ViewFacts(b);
    TrimTable(b.table, b.idx, k, n);
    ViewFacts(Progress(b, m, k, n, ok));
  }

  lemma TrimTable(table: seq<Vec>, idx: nat, k: nat, n: nat)
    requires idx + k < |table| && n <= table[idx + k].len
    ensures var j := idx + k;
            table[j := table[j].(off := table[j].off + n, len := table[j].len - n)][j..] == Trim(table[idx..], k, n)
  {
    var j := idx + k;
    var t := table[j := table[j].(off := table[j].off + n, len := table[j].len - n)];
    assert t[j..] == [t[j]] + table[j + 1..];
    assert table[j + 1..] == table[idx..][k + 1..];
  }

  /** Writing the progress into the first bio gives what is left. */
  /** What is left is the chain with the progress of its first bio. */
  ghost predicate LeftWith(rest: seq<Bio>, bios: seq<RawBio>, k: nat, m: nat, n: nat, ok: bool) {
    && bios != [] && m < bios[0].size
    && bios[0].idx + k < |bios[0].table| && n <= bios[0].table[bios[0].idx + k].len
    && rest == [View(Progress(bios[0], m, k, n, ok))] + Views(bios[1..])
  }

  lemma HaltedView(all: seq<Bio>, n0: nat, ok: bool, bios: seq<RawBio>, e: nat, k: nat, m: nat, n: nat)
    requires Halted(all, n0, ok, Views(bios), e, k, m, n) && m > 0 && bios != [] && bios[0].idx <= |bios[0].table|
    ensures LeftWith(Rest(all, n0, ok), bios, k, m, n, ok)
  {
    ViewsCons(bios);
    hide Views, Rest, SkipVecs, Trim, Ends, View;
    ViewFacts(bios[0]);
    ProgressView(bios[0], m, k, n, ok);
  }

  lemma ViewFacts(b: RawBio)
    ensures View(b).id == b.id && View(b).size == b.size && View(b).sector == b.sector && View(b).good == b.good
    ensures b.idx <= |b.table| ==> View(b).vecs == b.table[b.idx..]
  {
  }

  lemma StartsMidway(bios: seq<Bio>, n: nat, ok: bool)
    requires ChainOk(bios)
    ensures Midway(bios, n, ok, bios, 0, 0, 0, n)
  {
    hide BioOk;
    if bios != [] {
      assert bios[0].vecs[..0] == [];
    }
  }

  /** Where the loop is; `go` until it breaks off. */
  ghost predicate Looping(all: seq<Bio>, n0: nat, ok: bool, chain: seq<Bio>, e: nat, k: nat, m: nat, n: nat,
                          go: bool, total: nat)
  {
    if go then Midway(all, n0, ok, chain, e, k, m, n) && total + n == n0
    else chain != [] && Halted(all, n0, ok, chain, e, k, m, n) && total == n0
  }

  /** The same with the chain as what is left of `all` after `e` bios. */
  ghost predicate LoopAt(all: seq<Bio>, n0: nat, ok: bool, e: nat, k: nat, m: nat, n: nat, go: bool, total: nat) {
    e <= |all| && Looping(all, n0, ok, all[e..], e, k, m, n, go, total)
  }

  lemma LoopStart(all: seq<Bio>, n0: nat, ok: bool)
    requires ChainOk(all)
    ensures LoopAt(all, n0, ok, 0, 0, 0, n0, true, 0)
  {
    StartsMidway(all, n0, ok);
    assert all[0..] == all;
    hide Midway;
  }

  lemma LoopWhole(all: seq<Bio>, n0: nat, ok: bool, e: nat, k: nat, m: nat, n: nat, total: nat)
    requires LoopAt(all, n0, ok, e, k, m, n, true, total) && e < |all| && n >= all[e].size
    ensures var n' := n - all[e].size;
            LoopAt(all, n0, ok, e + 1, 0, 0, n', e + 1 == |all| || n' > 0, total + all[e].size)
  {
    WholeBio(all, n0, ok, all[e..], e, k, m, n);
    assert all[e..][1..] == all[e + 1..];
    hide Midway, Halted;
  }

  lemma LoopVec(all: seq<Bio>, n0: nat, ok: bool, e: nat, k: nat, m: nat, n: nat, total: nat)
    requires LoopAt(all, n0, ok, e, k, m, n, true, total) && e < |all| && n < all[e].size
    ensures k < |all[e].vecs| && 0 < all[e].vecs[k].len <= all[e].size
    ensures var len := all[e].vecs[k].len;
            if len > n then LoopAt(all, n0, ok, e, k, m + n, n, false, total + n)
            else LoopAt(all, n0, ok, e, k + 1, m + len, n - len, n > len, total + len)
  {
    NextVec(all, n0, ok, all[e..], e, k, m, n);
    hide Midway, Halted;
  }

  lemma LoopEnds(all: seq<Bio>, n0: nat, ok: bool, e: nat, k: nat, m: nat, n: nat, go: bool, total: nat)
    requires LoopAt(all, n0, ok, e, k, m, n, go, total) && (e == |all| || !go)
    ensures Halted(all, n0, ok, all[e..], e, k, m, n) && (e < |all| ==> total == n0) && Ends(all, n0) == e
  {
  }

  /** req_bio_endio: the bio afterwards, and its report if that ended it. */
  method BioEndio(bio: RawBio, bytes: nat, ok: bool, flushSeq: bool) returns (b: RawBio, report: seq<(nat, bool)>)
    ensures var n := if bytes > bio.size then bio.size else bytes;
            b == bio.(size := bio.size - n, sector := bio.sector + n / 512, good := bio.good && ok)
    ensures report == if b.size == 0 && !flushSeq then [(bio.id, bio.good && ok)] else []
  {
    b := bio;
    var n := bytes;
    if !ok {
      b := b.(good := false);
    }
    if n > b.size {
      n := b.size;
    }
    b := b.(size := b.size - n, sector := b.sector + n / 512);
    report := if b.size == 0 && !flushSeq then [(b.id, b.good)] else [];
  }

  /** The loop of blk_update_request: `e` whole bios are ended, and the place
      where the bytes end is found: `m` bytes, that is `k` vectors and `n` bytes of
      the next one, into the first bio that is left. The two ways out on
      inconsistent sizes are the assertions. */
  method EndBios(bios: seq<RawBio>, bytes: nat, ok: bool, flushSeq: bool)
    returns (reports: seq<(nat, bool)>, e: nat, k: nat, m: nat, n: nat, total: nat)
    requires ChainOk(Views(bios)) && forall i :: 0 <= i < |bios| ==> bios[i].idx <= |bios[i].table|
    ensures e == Ends(Views(bios), bytes) <= |bios| && Halted(Views(bios), bytes, ok, Views(bios)[e..], e, k, m, n)
    ensures reports == Logged([], flushSeq, Views(bios), e, ok) && (e < |bios| ==> total == bytes)
  {
    hide *;
    ghost var all := Views(bios);
    reports, e, k, m, n, total := [], 0, 0, 0, bytes, 0;
    var go := true;
    LoopStart(all, bytes, ok);
    LoggedNone(flushSeq, all, ok);
    while e < |bios| && go
      invariant e <= |bios| && LoopAt(all, bytes, ok, e, k, m, n, go, total)
      invariant reports == Logged([], flushSeq, all, e, ok)
      decreases |bios| - e, go, n
    {
      var bio := bios[e];
      ViewFacts(bio);
      assert all[e] == View(bio);
      if n >= bio.size {
        LoopWhole(all, bytes, ok, e, k, m, n, total);
        LoggedSnoc([], flushSeq, all, e, ok);
        var done, report := BioEndio(bio, bio.size, ok, flushSeq);
        reports, e := reports + report, e + 1;
        k, m, n, total := 0, 0, n - bio.size, total + bio.size;
        go := e == |bios| || n > 0;
      } else {
        LoopVec(all, bytes, ok, e, k, m, n, total);
        assert bio.idx + k < |bio.table|;
        var len := bio.table[bio.idx + k].len;
        assert len <= bio.size;
        if len > n {
          m, total, go := m + n, total + n, false;
        } else {
          k, m, n, total := k + 1, m + len, n - len, total + len;
          go := n > 0;
        }
      }
    }
    LoopEnds(all, bytes, ok, e, k, m, n, go, total);
  }

  /** What is left, written back: the chain with the progress in its first bio. */
  function Written(bios: seq<RawBio>, e: nat, k: nat, m: nat, n: nat, ok: bool): seq<RawBio>
    requires e <= |bios|
    requires m > 0 ==> && e < |bios| && m <= bios[e].size && bios[e].idx + k < |bios[e].table|
                       && n <= bios[e].table[bios[e].idx + k].len
  {
    if m == 0 then bios[e..] else [Progress(bios[e], m, k, n, ok)] + bios[e + 1..]
  }

  lemma WrittenOk(bios: seq<RawBio>, n0: nat, ok: bool, e: nat, k: nat, m: nat, n: nat)
    requires e <= |bios| && Halted(Views(bios), n0, ok, Views(bios)[e..], e, k, m, n)
    requires forall i :: 0 <= i < |bios| ==> bios[i].idx <= |bios[i].table|
    ensures m > 0 ==> && e < |bios| && m < bios[e].size && bios[e].idx + k < |bios[e].table|
                      && n <= bios[e].table[bios[e].idx + k].len
    ensures Views(Written(bios, e, k, m, n, ok)) == Rest(Views(bios), n0, ok)
    ensures forall i :: 0 <= i < |Written(bios, e, k, m, n, ok)| ==>
              Written(bios, e, k, m, n, ok)[i].idx <= |Written(bios, e, k, m, n, ok)[i].table|
  {
    hide Halted, Rest, Views, Progress;
    ViewsDrop(bios, e);
    if m == 0 {
      HaltedWhole(Views(bios), n0, ok, Views(bios)[e..], e, k, n);
    } else {
      HaltedSome(Views(bios), n0, ok, Views(bios)[e..], e, k, m, n);
      HaltedView(Views(bios), n0, ok, bios[e..], e, k, m, n);
      assert bios[e..][1..] == bios[e + 1..];
      var x := Progress(bios[e], m, k, n, ok);
      ProgressIdx(bios[e], m, k, n, ok);
      ViewsCons([x] + bios[e + 1..]);
      assert ([x] + bios[e + 1..])[1..] == bios[e + 1..];
    }
  }

  lemma ViewsDrop(bios: seq<RawBio>, e: nat)
    requires e <= |bios|
    ensures Views(bios)[e..] == Views(bios[e..]) && |Views(bios)| == |bios|
  {
  }

  lemma HaltedWhole(all: seq<Bio>, n0: nat, ok: bool, chain: seq<Bio>, e: nat, k: nat, n: nat)
    requires Halted(all, n0, ok, chain, e, k, 0, n)
    ensures Rest(all, n0, ok) == chain
  {
    hide Rest, Ends;
  }

  lemma HaltedSome(all: seq<Bio>, n0: nat, ok: bool, chain: seq<Bio>, e: nat, k: nat, m: nat, n: nat)
    requires Halted(all, n0, ok, chain, e, k, m, n) && m > 0
    ensures chain != []
  {
    hide Rest, Ends;
  }

  lemma ProgressIdx(b: RawBio, m: nat, k: nat, n: nat, ok: bool)
    requires m <= b.size && b.idx + k < |b.table| && n <= b.table[b.idx + k].len
    ensures var x := Progress(b, m, k, n, ok); x.idx <= |x.table|
  {
  }

  class Request {
    const hasSector: bool
    const flushSeq: bool
    var bios: seq<RawBio>
    var dataLen: nat
    var sector: nat
    var ended: seq<(nat, bool)>

    constructor (bios: seq<RawBio>, dataLen: nat, sector: nat, hasSector: bool, flushSeq: bool)
      ensures this.bios == bios && this.dataLen == dataLen && this.sector == sector && ended == []
      ensures this.hasSector == hasSector && this.flushSeq == flushSeq
    {
      this.bios, this.dataLen, this.sector, this.ended := bios, dataLen, sector, [];
      this.hasSector, this.flushSeq := hasSector, flushSeq;
    }

    ghost function State(): Req
      reads this
    {
      Req(Views(bios), dataLen, sector, hasSector)
    }

    /** The request is well formed and the vector indices are in range. */
    ghost predicate Valid()
      reads this
    {
      ReqOk(State()) && forall i :: 0 <= i < |bios| ==> bios[i].idx <= |bios[i].table|
    }

    /** blk_update_request; the "request botched" test is the last assertion. */
    method UpdateRequest(bytes: nat, ok: bool) returns (more: bool)
      requires Valid()
      modifies this
      ensures Valid() && (State(), more) == Update(old(State()), bytes, ok)
      ensures Ends(old(Views(bios)), bytes) <= |old(bios)|
      ensures ended == old(ended) + if flushSeq then []
                                    else Reports(old(Views(bios)), Ends(old(Views(bios)), bytes), ok)
    {
      hide Rest, Ends, Bytes, Total, BioOk, Halted, Logged, Reports, View, Written, Update, ChainOk, ReqOk, CurBytes;
      ghost var was := State();
      UpdateOk(was, bytes, ok);
      if bios == [] {
        NoBios(was, bytes, ok, flushSeq);
        LoggedIs(flushSeq, was.bios, 0, ok);
        return false;
      }
      assert ChainOk(was.bios) by {
        Formed(was);
      }
      var reports, e, k, m, n, total := EndBios(bios, bytes, ok, flushSeq);
      WrittenOk(bios, bytes, ok, e, k, m, n);
      UpdateParts(was, bytes, ok);
      LoggedIs(flushSeq, was.bios, e, ok);
      ended := ended + reports;
      if e == |bios| {
        WrittenNone(bios, k, m, n, ok);
        bios, dataLen := [], 0;
        return false;
      }
      var rest := WriteBack(bios, e, k, m, n, ok, flushSeq);
      bios := rest;
      dataLen := dataLen - total;
      if hasSector {
        sector := sector + total / 512;
      }
      assert dataLen >= CurBytes(Views(bios));
      more := true;
    }
  }

  lemma Formed(r: Req)
    requires ReqOk(r)
    ensures ChainOk(r.bios)
  {
  }

  lemma NoBios(r: Req, n: nat, ok: bool, flushSeq: bool)
    requires ReqOk(r) && r.bios == []
    ensures Update(r, n, ok) == (r, false) && Ends(r.bios, n) == 0 && Logged([], flushSeq, r.bios, 0, ok) == []
  {
  }

  /** The two ways a completion of a request with bios ends. */
  lemma UpdateParts(r: Req, n: nat, ok: bool)
    requires ReqOk(r) && r.bios != []
    ensures Rest(r.bios, n, ok) == [] ==> Update(r, n, ok) == (r.(bios := [], dataLen := 0), false)
    ensures Rest(r.bios, n, ok) != [] ==>
              && n <= r.dataLen
              && Update(r, n, ok) == (r.(bios := Rest(r.bios, n, ok), dataLen := r.dataLen - n,
                                         sector := r.sector + if r.hasSector then n / 512 else 0), true)
  {
    if Rest(r.bios, n, ok) != [] {
      LeftOver(r.bios, n, ok);
    }
    hide Rest, Total, ChainOk;
  }

  lemma WrittenNone(bios: seq<RawBio>, k: nat, m: nat, n: nat, ok: bool)
    requires m == 0
    ensures Written(bios, |bios|, k, m, n, ok) == [] && Views([]) == []
  {
  }

  /** The update of the first bio that is left. */
  method WriteBack(bios: seq<RawBio>, e: nat, k: nat, m: nat, n: nat, ok: bool, flushSeq: bool)
    returns (rest: seq<RawBio>)
    requires e < |bios|
    requires m > 0 ==> m < bios[e].size && bios[e].idx + k < |bios[e].table| && n <= bios[e].table[bios[e].idx + k].len
    ensures rest == Written(bios, e, k, m, n, ok) && rest != []
  {
    if m > 0 {
      var bio, report := BioEndio(bios[e], m, ok, flushSeq);
      bio := bio.(idx := bio.idx + k);
      var v := bio.table[bio.idx];
      bio := bio.(table := bio.table[bio.idx := v.(off := v.off + n, len := v.len - n)]);
      assert report == [];
      rest := [bio] + bios[e + 1..];
    } else {
      rest := bios[e..];
    }
  }
}

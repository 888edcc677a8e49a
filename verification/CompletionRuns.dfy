/** What the partial completions of a request amount to: the bytes that are left
    stay at their places on the disk, and a bio is reported once, as good exactly
    if it was and all its bytes were completed without error. */
module CompletionRuns {
  import opened Lists
  import opened Completion

  // ------------------------------------------------------------ places on disk

  /** The bios lie one behind the other on the disk, from sector `at` on. */
  predicate Adjoining(bios: seq<Bio>, at: nat)
    decreases |bios|
  {
    bios != [] ==> bios[0].sector == at && Adjoining(bios[1..], at + bios[0].size / 512)
  }

  lemma Sectors(size: nat, n: nat)
    requires size % 512 == 0 && n % 512 == 0 && n <= size
    ensures (size - n) / 512 == size / 512 - n / 512 && (size - n) % 512 == 0
  {
  }

  /** What is left lies behind what was completed. */
  lemma {:induction false} RestAdjoins(bios: seq<Bio>, n: nat, ok: bool, at: nat)
    requires Adjoining(bios, at) && WholeSectors(bios) && n % 512 == 0
    ensures Adjoining(Rest(bios, n, ok), at + n / 512) && WholeSectors(Rest(bios, n, ok))
  {
    hide Rest, Advance, Ends;
    if bios == [] {
      RestNone(n, ok);
    } else {
      var x, rest := bios[0], bios[1..];
      assert x in bios && forall b :: b in rest ==> b in bios;
      RestStep(bios, n, ok);
      if n > x.size {
        Sectors(n, x.size);
        RestAdjoins(rest, n - x.size, ok, at + x.size / 512);
      } else if 0 < n < x.size {
        Sectors(x.size, n);
        AdvancedOnDisk(x, n, ok);
        assert ([Advance(x, n, ok)] + rest)[1..] == rest;
      }
    }
  }

  lemma AdvancedOnDisk(x: Bio, n: nat, ok: bool)
    requires n <= x.size
    ensures Advance(x, n, ok).sector == x.sector + n / 512 && Advance(x, n, ok).size == x.size - n
  {
  }

  /** The request starts where its first bio does, and its bios adjoin. */
  ghost predicate OnDisk(r: Req) {
    r.hasSector && r.bios != [] ==> Adjoining(r.bios, r.sector)
  }

  /** A completion of whole sectors keeps that, and the sector a request ends at. */
  lemma UpdateOnDisk(r: Req, n: nat, ok: bool)
    requires ReqOk(r) && OnDisk(r) && r.hasSector && WholeSectors(r.bios) && n % 512 == 0
    ensures var (r', more) := Update(r, n, ok);
            && OnDisk(r') && WholeSectors(r'.bios)
            && (more ==> r'.sector * 512 + r'.dataLen == r.sector * 512 + r.dataLen)
  {
    if r.bios != [] {
      RestAdjoins(r.bios, n, ok, r.sector);
      if Rest(r.bios, n, ok) != [] {
        LeftOver(r.bios, n, ok);
      }
    }
    hide Rest, Total, Adjoining;
  }

  // ------------------------------------------------------------------- reports

  /** A completion of `n` bytes, without error or with one. */
  datatype Done = Done(n: nat, ok: bool)

  function Copies(n: nat, ok: bool): (l: seq<bool>)
    ensures |l| == n
  {
    seq(n, i requires 0 <= i < n => ok)
  }

  /** For each byte completed, in order, whether without error. */
  function Verdicts(ds: seq<Done>): seq<bool> {
    if ds == [] then [] else Copies(ds[0].n, ds[0].ok) + Verdicts(ds[1..])
  }

  predicate AllTrue(l: seq<bool>) {
    forall i :: 0 <= i < |l| ==> l[i]
  }

  /** The reports due once the bytes have these verdicts: one for every bio all of
      whose bytes have one. */
  function Judged(bios: seq<Bio>, oks: seq<bool>): seq<(nat, bool)>
    decreases |bios|
  {
    if bios == [] || |oks| < bios[0].size then []
    else
      [(bios[0].id, bios[0].good && AllTrue(oks[..bios[0].size]))] + Judged(bios[1..], oks[bios[0].size..])
  }

  /** The reports of a run of completions. */
  ghost function Reported(bios: seq<Bio>, ds: seq<Done>): seq<(nat, bool)>
    decreases |ds|
  {
    if ds == [] then []
    else
      RestShape(bios, ds[0].n, ds[0].ok);
      Reports(bios, Ends(bios, ds[0].n), ds[0].ok) + Reported(Rest(bios, ds[0].n, ds[0].ok), ds[1..])
  }

  predicate NoneEmpty(bios: seq<Bio>) {
    forall b :: b in bios ==> b.size > 0
  }

  lemma CopiesTrue(n: nat, ok: bool)
    requires n > 0
    ensures AllTrue(Copies(n, ok)) == ok
  {
    if !ok {
      assert !Copies(n, ok)[0];
    }
  }

  lemma AllTrueJoin(a: seq<bool>, b: seq<bool>)
    ensures AllTrue(a + b) == (AllTrue(a) && AllTrue(b))
  {
    if AllTrue(a + b) {
      forall i | 0 <= i < |a|
        ensures a[i]
      {
        assert (a + b)[i];
      }
      forall i | 0 <= i < |b|
        ensures b[i]
      {
        assert (a + b)[|a| + i];
      }
    }
  }

  lemma CopiesSplit(n: nat, m: nat, ok: bool, oks: seq<bool>)
    requires m <= n
    ensures (Copies(n, ok) + oks)[..m] == Copies(m, ok) && (Copies(n, ok) + oks)[m..] == Copies(n - m, ok) + oks
  {
  }

  lemma JudgedInside(x: Bio, rest: seq<Bio>, n: nat, ok: bool, oks: seq<bool>)
    requires 0 < n < x.size
    ensures Judged([x] + rest, Copies(n, ok) + oks) == Judged([Advance(x, n, ok)] + rest, oks)
  {
    var all, more := Copies(n, ok) + oks, x.size - n;
    var y := Advance(x, n, ok);
    assert ([x] + rest)[1..] == rest && ([y] + rest)[1..] == rest;
    assert y.size == more && y.id == x.id && y.good == (x.good && ok);
    if |oks| >= more {
      assert all[..x.size] == Copies(n, ok) + oks[..more] && all[x.size..] == oks[more..];
      AllTrueJoin(Copies(n, ok), oks[..more]);
      CopiesTrue(n, ok);
    }
    hide Advance;
  }

  lemma ReportsFirst(bios: seq<Bio>, k: nat, ok: bool)
    requires 0 < k <= |bios|
    ensures Reports(bios, k, ok) == [(bios[0].id, bios[0].good && ok)] + Reports(bios[1..], k - 1, ok)
  {
  }

  lemma JudgedNothing(bios: seq<Bio>)
    requires NoneEmpty(bios)
    ensures Judged(bios, []) == []
  {
    if bios != [] {
      assert bios[0] in bios;
    }
  }

  /** A completion reports what its bytes decide, and leaves the rest to judge. */
  lemma {:induction false} JudgedStep(bios: seq<Bio>, n: nat, ok: bool, oks: seq<bool>)
    requires NoneEmpty(bios)
    ensures Ends(bios, n) <= |bios| && NoneEmpty(Rest(bios, n, ok))
    ensures Judged(bios, Copies(n, ok) + oks) == Reports(bios, Ends(bios, n), ok) + Judged(Rest(bios, n, ok), oks)
    decreases |bios|
  {
    hide Rest, Ends, Advance, AllTrue, Copies;
    if bios == [] {
      RestNone(n, ok);
    } else {
      var x, rest, all := bios[0], bios[1..], Copies(n, ok) + oks;
      assert x in bios && forall b :: b in rest ==> b in bios;
      RestStep(bios, n, ok);
      if n >= x.size {
        JudgedWhole(bios, n, ok, oks);
      } else if n == 0 {
        assert all == oks;
      } else {
        JudgedInside(x, rest, n, ok, oks);
        assert bios == [x] + rest;
        StillNonempty(x, rest, n, ok);
      }
    }
  }

  lemma StillNonempty(x: Bio, rest: seq<Bio>, n: nat, ok: bool)
    requires n < x.size && NoneEmpty(rest)
    ensures NoneEmpty([Advance(x, n, ok)] + rest)
  {
  }

  /** The first bio is judged by its own bytes. */
  lemma JudgedFirst(bios: seq<Bio>, n: nat, ok: bool, oks: seq<bool>)
    requires bios != [] && 0 < bios[0].size <= n
    ensures Judged(bios, Copies(n, ok) + oks)
            == [(bios[0].id, bios[0].good && ok)] + Judged(bios[1..], Copies(n - bios[0].size, ok) + oks)
  {
    hide AllTrue, Copies;
    CopiesSplit(n, bios[0].size, ok, oks);
    CopiesTrue(bios[0].size, ok);
  }

  lemma JudgedWhole(bios: seq<Bio>, n: nat, ok: bool, oks: seq<bool>)
    requires bios != [] && NoneEmpty(bios) && n >= bios[0].size
    ensures Ends(bios, n) <= |bios| && NoneEmpty(Rest(bios, n, ok))
    ensures Judged(bios, Copies(n, ok) + oks) == Reports(bios, Ends(bios, n), ok) + Judged(Rest(bios, n, ok), oks)
    decreases |bios|, 0
  {
    hide Rest, Ends, Copies, Judged, Reports;
    var x, rest := bios[0], bios[1..];
    assert x in bios && forall b :: b in rest ==> b in bios;
    RestStep(bios, n, ok);
    JudgedFirst(bios, n, ok, oks);
    if n > x.size {
      JudgedStep(rest, n - x.size, ok, oks);
      ReportsFirst(bios, Ends(bios, n), ok);
      Regroup([(x.id, x.good && ok)], Reports(rest, Ends(rest, n - x.size), ok), Judged(Rest(bios, n, ok), oks));
    } else {
      ReportsOne(bios, ok);
      assert Copies(0, ok) + oks == oks;
    }
  }

  lemma ReportsOne(bios: seq<Bio>, ok: bool)
    requires bios != []
    ensures Reports(bios, 1, ok) == [(bios[0].id, bios[0].good && ok)]
  {
  }

  /** Over any run of completions the reports are those due: each bio once, in
      order, when its last byte is done, and good exactly if it was good and no
      completion of any of its bytes failed. */
  lemma {:induction false} RunJudged(bios: seq<Bio>, ds: seq<Done>)
    requires NoneEmpty(bios)
    ensures Reported(bios, ds) == Judged(bios, Verdicts(ds))
    decreases |ds|
  {
    hide Rest, Ends, Copies, Judged, Reports;
    if ds == [] {
      JudgedNothing(bios);
    } else {
      RestShape(bios, ds[0].n, ds[0].ok);
      JudgedStep(bios, ds[0].n, ds[0].ok, Verdicts(ds[1..]));
      RunJudged(Rest(bios, ds[0].n, ds[0].ok), ds[1..]);
    }
  }
}

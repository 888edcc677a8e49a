/** How long a throttled bio waits in block/blk-throttle.c: whether the waits
    that tg_may_dispatch works out are long enough, and what becomes of a bio
    whose turn comes late. */
module ThrottleWait {
  import opened ThrottleRate

  /** The same bio of `size` bytes is tried again and again, never before the
      wait that the last attempt was told is over. */
  predicate Attempts(l: Limit, s: Lane, size: nat, es: seq<Event>)
    requires l.Valid()
    decreases |es|
  {
    es != [] ==>
      && es[0].Submit? && es[0].size == size
      && (|es| > 1 ==> es[0].now + MayDispatch(l, s, es[0].now, size).1 <= es[1].now)
      && Attempts(l, Step(l, s, es[0]), size, es[1..])
  }

  /** No attempt comes after the slice of the one before it has run out. */
  predicate InSlice(l: Limit, s: Lane, es: seq<Event>)
    requires l.Valid()
    decreases |es|
  {
    |es| > 1 ==> es[1].now <= Step(l, s, es[0]).end && InSlice(l, Step(l, s, es[0]), es[1..])
  }

  /** One slice alone is worth the bio. */
  predicate FitsSlice(l: Limit, size: nat)
    requires l.Valid()
  {
    size <= Quota(l.bps, l.Slice(), l.hz) && 1 <= Quota(l.iops, l.Slice(), l.hz)
  }

  /** What the rate still needs for the bio is less than one tick. */
  predicate Near(l: Limit, s: Lane, now: nat, size: nat)
    requires l.Valid() && s.start <= now
  {
    (s.bytesDisp + size) * l.hz < l.bps * (ElapsedRounded(l, s, now) + 1)
  }

  // ------------------------------------------------------------- one attempt more

  lemma QuotaReached(rate: nat, ticks: nat, hz: nat, x: nat)
    requires hz > 0 && x * hz <= rate * ticks
    ensures x <= Quota(rate, ticks, hz)
  {
    MulCancel(x, Quota(rate, ticks, hz) + 1, hz);
  }

  lemma TicksReached(amount: nat, rate: nat, hz: nat)
    requires rate > 0
    ensures amount * hz < rate * (TicksFor(amount, rate, hz) + 1)
  {
    var x := TicksFor(amount, rate, hz);
    assert amount * hz == x * rate + amount * hz % rate;
    assert rate * (x + 1) == x * rate + rate;
  }

  lemma NearBy(rate: nat, hz: nat, allowed: nat, extra: nat, rounded: nat, x: nat, rounded': nat)
    requires allowed * hz <= rate * rounded && extra * hz < rate * (x + 1) && rounded + x <= rounded'
    ensures (allowed + extra) * hz < rate * (rounded' + 1)
  {
    assert (allowed + extra) * hz == allowed * hz + extra * hz;
    assert rate * (rounded + (x + 1)) == rate * rounded + rate * (x + 1);
    MulMono(rate, rounded + (x + 1), rounded' + 1);
  }

  /** The byte wait reaches beyond the ticks the missing bytes take, counted from
      the end of the time already allowed for. */
  lemma BytesWaited(l: Limit, s: Lane, now: nat, later: nat, size: nat)
    requires l.Valid() && s.start <= now && BpsWait(l, s, now, size) > 0 && now + BpsWait(l, s, now, size) <= later
    ensures BytesAllowed(l, s, now) < s.bytesDisp + size
    ensures var rounded, rounded' := ElapsedRounded(l, s, now), ElapsedRounded(l, s, later);
            && rounded' >= rounded + 1
            && rounded' >= rounded + TicksFor(s.bytesDisp + size - BytesAllowed(l, s, now), l.bps, l.hz)
  {
    ElapsedBounds(l, s, now);
    ElapsedBounds(l, s, later);
    hide TicksFor, ElapsedRounded, BytesAllowed;
  }

  /** Waiting as long as the byte limit says leaves less than a tick to go. */
  lemma BytesNear(l: Limit, s: Lane, now: nat, later: nat, size: nat)
    requires l.Valid() && s.start <= now && BpsWait(l, s, now, size) > 0 && now + BpsWait(l, s, now, size) <= later
    ensures Near(l, s, later, size)
    ensures ElapsedRounded(l, s, later) >= ElapsedRounded(l, s, now) + 1
  {
    BytesWaited(l, s, now, later, size);
    var rounded, allowed := ElapsedRounded(l, s, now), BytesAllowed(l, s, now);
    hide Quota, TicksFor, ElapsedRounded, BpsWait;
    var extra := s.bytesDisp + size - allowed;
    QuotaCovers(l.bps, rounded, l.hz, allowed);
    TicksReached(extra, l.bps, l.hz);
    NearBy(l.bps, l.hz, allowed, extra, rounded, TicksFor(extra, l.bps, l.hz), ElapsedRounded(l, s, later));
  }

  /** If less than a tick was missing, the next attempt passes the byte limit. */
  lemma NearPasses(l: Limit, s: Lane, now: nat, later: nat, size: nat)
    requires l.Valid() && s.start <= now && Near(l, s, now, size) && s.start <= later
    requires ElapsedRounded(l, s, later) >= ElapsedRounded(l, s, now) + 1
    ensures BpsWait(l, s, later, size) == 0
  {
    MulMono(l.bps, ElapsedRounded(l, s, now) + 1, ElapsedRounded(l, s, later));
    QuotaReached(l.bps, ElapsedRounded(l, s, later), l.hz, s.bytesDisp + size);
  }

  lemma ElapsedMono(l: Limit, s: Lane, now: nat, later: nat)
    requires l.Valid() && s.start <= now <= later
    ensures ElapsedRounded(l, s, now) <= ElapsedRounded(l, s, later)
  {
    var k := l.Slice();
    var a := if now == s.start then k else now - s.start;
    var b := if later == s.start then k else later - s.start;
    if now == s.start && later - s.start < k {
      RoundUpIs(b, k, 1);
      RoundUpIs(k, k, 1);
    } else {
      RoundUpMono(a, b, k);
    }
  }

  lemma RoundUpMono(a: nat, b: nat, k: nat)
    requires k > 0 && a <= b
    ensures RoundUp(a, k) <= RoundUp(b, k)
  {
    var p, q := (a + (k - 1)) / k, (b + (k - 1)) / k;
    assert p * k <= a + (k - 1) && b + (k - 1) < (q + 1) * k;
    MulCancel(p, q + 1, k);
    MulMono(k, p, q);
  }

  /** What the byte limit lets go it lets go later. */
  lemma BytesStayFree(l: Limit, s: Lane, now: nat, later: nat, size: nat)
    requires l.Valid() && s.start <= now <= later && BpsWait(l, s, now, size) == 0
    ensures BpsWait(l, s, later, size) == 0
  {
    ElapsedMono(l, s, now, later);
    QuotaMono(l.bps, ElapsedRounded(l, s, now), ElapsedRounded(l, s, later), l.hz);
  }

  /** Waiting as long as the bios limit says is enough. */
  lemma IosReached(l: Limit, s: Lane, now: nat, later: nat)
    requires l.Valid() && s.start <= now && s.ioDisp < UINT_MAX
    requires IopsWait(l, s, now) > 0 && now + IopsWait(l, s, now) <= later
    ensures IopsWait(l, s, later) == 0
  {
    var x, rounded := TicksFor(s.ioDisp + 1, l.iops, l.hz), ElapsedRounded(l, s, later);
    ElapsedBounds(l, s, later);
    assert later - s.start >= x + 1;
    TicksReached(s.ioDisp + 1, l.iops, l.hz);
    hide TicksFor, ElapsedRounded, Quota;
    MulMono(l.iops, x + 1, rounded);
    QuotaReached(l.iops, rounded, l.hz, s.ioDisp + 1);
  }

  // ---------------------------------------------------------------- a blocked lane

  /** A lane on which an attempt at `now` was told to wait `wait` ticks: the
      slice is current and as the attempt left it. */
  ghost predicate Waiting(l: Limit, s: Lane, now: nat, size: nat, wait: nat)
    requires l.Valid()
  {
    && s.start <= now && now + wait <= s.end && now + l.Slice() <= s.end && s.ioDisp < UINT_MAX
    && wait == Wait(l, s, now, size) > 0
  }

  lemma StepWaits(l: Limit, s: Lane, now: nat, size: nat)
    requires l.Valid() && s.ioDisp < UINT_MAX && AdmittedNow(l, s, Submit(now, size)) == []
    ensures var r := Step(l, s, Submit(now, size)); Waiting(l, r, now, size, MayDispatch(l, s, now, size).1)
  {
    RoundUpBounds(now + l.Slice(), l.Slice());
    var s1 := Renew(l, s, now);
    var wait := Wait(l, s1, now, size);
    RoundUpBounds(now + wait, l.Slice());
    var r := Step(l, s, Submit(now, size));
    assert r == s1.(end := r.end);
    assert Wait(l, r, now, size) == wait;
  }

  /** The next attempt, before the slice has run out, sees the same slice. */
  lemma NextInSlice(l: Limit, s: Lane, later: nat, size: nat)
    requires l.Valid() && s.start <= later <= s.end
    ensures var s1 := Renew(l, s, later);
            && s1 == s.(end := s1.end)
            && MayDispatch(l, s, later, size).1 == Wait(l, s, later, size)
  {
    var s1 := Renew(l, s, later);
    assert Wait(l, s1, later, size) == Wait(l, s, later, size);
    hide Wait, RoundUp;
  }

  /** How many attempts a waiting bio needs at most: one if only the bios limit
      held it up; one more if less than a tick of the rate was missing; else two. */
  ghost function Needed(l: Limit, s: Lane, now: nat, size: nat): nat
    requires l.Valid() && s.start <= now
  {
    if BpsWait(l, s, now, size) == 0 then 1 else if Near(l, s, now, size) then 2 else 3
  }

  /** An attempt in time and in the slice passes, or the bio is nearer to it. */
  lemma AttemptNearer(l: Limit, s: Lane, now: nat, size: nat, wait: nat, later: nat)
    requires l.Valid() && Waiting(l, s, now, size, wait) && now + wait <= later <= s.end
    ensures var w := Wait(l, s, later, size);
            w == 0 || (Needed(l, s, now, size) > 1 && Needed(l, s, later, size) < Needed(l, s, now, size))
  {
    hide Near, ElapsedRounded, BytesAllowed;
    if BpsWait(l, s, now, size) == 0 {
      hide BpsWait, IopsWait;
      BytesStayFree(l, s, now, later, size);
      IosReached(l, s, now, later);
    } else {
      BytesNear(l, s, now, later, size);
      if Near(l, s, now, size) {
        NearPasses(l, s, now, later, size);
      }
    }
  }

  /** An attempt after the slice has run out starts a new one; a bio that fits
      one slice passes. */
  lemma AttemptFresh(l: Limit, s: Lane, now: nat, size: nat)
    requires l.Valid() && SliceUsed(s, now) && FitsSlice(l, size)
    ensures MayDispatch(l, s, now, size).1 == 0
  {
    var s1 := Renew(l, s, now);
    RoundUpIs(l.Slice(), l.Slice(), 1);
    assert ElapsedRounded(l, s1, now) == l.Slice();
  }

  lemma SameNeeded(l: Limit, s: Lane, end: nat, now: nat, size: nat)
    requires l.Valid() && s.start <= now
    ensures Needed(l, s.(end := end), now, size) == Needed(l, s, now, size)
  {
  }

  /** The attempts after one that was told to wait. */
  lemma {:induction false} WaitingGoes(l: Limit, s: Lane, now: nat, size: nat, wait: nat, es: seq<Event>)
    requires l.Valid() && Waiting(l, s, now, size, wait) && Attempts(l, s, size, es)
    requires |es| >= Needed(l, s, now, size) && now + wait <= es[0].now
    requires FitsSlice(l, size) || (es[0].now <= s.end && InSlice(l, s, es))
    ensures Admitted(l, s, es) != []
    decreases |es|
  {
    var later := es[0].now;
    hide Wait, Needed, FitsSlice, RoundUp, Step;
    assert es[0] == Submit(later, size);
    if AdmittedNow(l, s, es[0]) == [] {
      if later > s.end {
        AttemptFresh(l, s, later, size);
        assert false;
      } else {
        NextInSlice(l, s, later, size);
        AttemptNearer(l, s, now, size, wait, later);
        StepWaits(l, s, later, size);
        StepSlice(l, s, later, size);
        var r := Step(l, s, es[0]);
        SameNeeded(l, s, r.end, later, size);
        WaitingGoes(l, r, later, size, MayDispatch(l, s, later, size).1, es[1..]);
      }
    }
  }

  lemma StepSlice(l: Limit, s: Lane, later: nat, size: nat)
    requires l.Valid() && s.start <= later <= s.end && AdmittedNow(l, s, Submit(later, size)) == []
    ensures var r := Step(l, s, Submit(later, size)); r == s.(end := r.end)
  {
    NextInSlice(l, s, later, size);
    hide Wait, RoundUp;
  }

  // ------------------------------------------------------------------- the results

  /** A bio that is never tried too early goes at the fourth attempt at the
      latest, if no attempt comes after the slice has run out, or if one slice
      alone is worth the bio. */
  lemma {:induction false} HeadGoes(l: Limit, s: Lane, size: nat, es: seq<Event>)
    requires l.Valid() && s.ioDisp < UINT_MAX && Attempts(l, s, size, es) && |es| >= 4
    requires FitsSlice(l, size) || InSlice(l, s, es)
    ensures Admitted(l, s, es) != []
  {
    if AdmittedNow(l, s, es[0]) == [] {
      assert es[0] == Submit(es[0].now, size);
      StepWaits(l, s, es[0].now, size);
      hide Step, MayDispatch, FitsSlice;
      WaitingGoes(l, Step(l, s, es[0]), es[0].now, size, MayDispatch(l, s, es[0].now, size).1, es[1..]);
    }
  }

  /** Attempts that each come just after the slice of the last has run out. */
  function LateAttempts(l: Limit, s: Lane, size: nat, now: nat, n: nat): (es: seq<Event>)
    requires l.Valid()
    ensures |es| == n && (n > 0 ==> es[0] == Submit(now, size))
    decreases n
  {
    if n == 0 then []
    else
      var r := Step(l, s, Submit(now, size));
      [Submit(now, size)] + LateAttempts(l, r, size, r.end + 1, n - 1)
  }

  /** The attempt after a slice has run out gets one slice and no more. */
  lemma LateBlocked(l: Limit, s: Lane, size: nat, now: nat)
    requires l.Valid() && SliceUsed(s, now) && !FitsSlice(l, size)
    ensures MayDispatch(l, s, now, size).1 > 0
    ensures var r := Step(l, s, Submit(now, size));
            SliceUsed(r, r.end + 1) && now + MayDispatch(l, s, now, size).1 <= r.end + 1
  {
    var s1 := Renew(l, s, now);
    RoundUpIs(l.Slice(), l.Slice(), 1);
    assert ElapsedRounded(l, s1, now) == l.Slice();
    RoundUpBounds(now + Wait(l, s1, now, size), l.Slice());
    LateWait(l, s1, now, size);
    hide Wait, RoundUp;
  }

  lemma LateWait(l: Limit, s: Lane, now: nat, size: nat)
    requires l.Valid() && s.start == now && s.bytesDisp == 0 && s.ioDisp == 0
    requires ElapsedRounded(l, s, now) == l.Slice() && !FitsSlice(l, size)
    ensures Wait(l, s, now, size) > 0
  {
    hide Quota;
  }

  lemma {:induction false} LateRun(l: Limit, s: Lane, size: nat, now: nat, n: nat)
    requires l.Valid() && SliceUsed(s, now) && !FitsSlice(l, size)
    ensures var es := LateAttempts(l, s, size, now, n); Attempts(l, s, size, es) && Admitted(l, s, es) == []
    decreases n
  {
    hide Step, MayDispatch, FitsSlice, SliceUsed;
    if n > 0 {
      LateBlocked(l, s, size, now);
      var es, r := LateAttempts(l, s, size, now, n), Step(l, s, Submit(now, size));
      assert es[1..] == LateAttempts(l, r, size, r.end + 1, n - 1);
      LateRun(l, r, size, r.end + 1, n - 1);
    }
  }

  /** A bio that one slice is not worth can be tried for ever without going,
      although no attempt comes too early: each comes too late. So fitting a
      slice is exactly what makes a bio safe from late attempts. */
  lemma {:induction false} SafeExactly(l: Limit, s: Lane, size: nat, n: nat)
    requires l.Valid() && s.ioDisp < UINT_MAX && n >= 4
    ensures FitsSlice(l, size) <==>
            forall es :: Attempts(l, s, size, es) && |es| == n ==> Admitted(l, s, es) != []
  {
    if FitsSlice(l, size) {
      forall es | Attempts(l, s, size, es) && |es| == n
        ensures Admitted(l, s, es) != []
      {
        HeadGoes(l, s, size, es);
      }
    } else {
      LateRun(l, s, size, s.end + 1, n);
      var es := LateAttempts(l, s, size, s.end + 1, n);
      assert Attempts(l, s, size, es) && |es| == n && Admitted(l, s, es) == [];
    }
  }

  // ---------------------------------------------------- looks and early attempts

  /** Ticks that `rate` per second needs for `amount`, rounded up. */
  function TicksNeeded(amount: nat, rate: nat, hz: nat): (ticks: nat)
    requires rate > 0
    ensures amount * hz <= rate * ticks
  {
    var x := TicksFor(amount, rate, hz);
    TicksReached(amount, rate, hz);
    if x * rate == amount * hz then x else x + 1
  }

  /** From when on the rates alone, without any rounding up, let a bio go. */
  function DueTime(l: Limit, s: Lane, size: nat): nat
    requires l.Valid()
  {
    var bytes, ios := TicksNeeded(s.bytesDisp + size, l.bps, l.hz), TicksNeeded(s.ioDisp + 1, l.iops, l.hz);
    s.start + if bytes >= ios then bytes else ios
  }

  /** Looks and attempts in any order and of any size, each before the slice has
      run out, of which none lets a bio go. */
  ghost predicate Fruitless(l: Limit, s: Lane, es: seq<Event>)
    requires l.Valid()
    decreases |es|
  {
    es != [] ==>
      && s.start <= es[0].now <= s.end && AdmittedNow(l, s, es[0]) == []
      && Fruitless(l, Step(l, s, es[0]), es[1..])
  }

  /** They leave the slice as it is, but for its end. */
  lemma {:induction false} FruitlessKeeps(l: Limit, s: Lane, es: seq<Event>)
    requires l.Valid() && Fruitless(l, s, es)
    ensures var r := Run(l, s, es); r == s.(end := r.end) && r.end >= s.end
    decreases |es|
  {
    if es != [] {
      FruitlessStep(l, s, es[0]);
      hide Step, AdmittedNow;
      FruitlessKeeps(l, Step(l, s, es[0]), es[1..]);
    }
  }

  lemma FruitlessStep(l: Limit, s: Lane, e: Event)
    requires l.Valid() && s.start <= e.now <= s.end && AdmittedNow(l, s, e) == []
    ensures var r := Step(l, s, e); r == s.(end := r.end) && r.end >= s.end
  {
    NextInSlice(l, s, e.now, e.size);
    StepIs(l, s, e);
    StepIsLook(l, s, e);
    RoundUpBounds(e.now + l.Slice(), l.Slice());
    hide Wait, RoundUp;
  }

  lemma StepIsLook(l: Limit, s: Lane, e: Event)
    requires l.Valid() && AdmittedNow(l, s, e) == []
    ensures Step(l, s, e) == MayDispatch(l, s, e.now, e.size).0
    ensures !(e.Submit? && Wait(l, Renew(l, s, e.now), e.now, e.size) == 0)
  {
    hide Wait, RoundUp, TrimSlice;
  }

  lemma DueFree(l: Limit, s: Lane, now: nat, size: nat)
    requires l.Valid() && s.start <= now && DueTime(l, s, size) <= now && s.ioDisp < UINT_MAX
    ensures Wait(l, s, now, size) == 0
  {
    var rounded := ElapsedRounded(l, s, now);
    ElapsedBounds(l, s, now);
    var bytes, ios := TicksNeeded(s.bytesDisp + size, l.bps, l.hz), TicksNeeded(s.ioDisp + 1, l.iops, l.hz);
    hide TicksNeeded, ElapsedRounded, Quota;
    MulMono(l.bps, bytes, rounded);
    QuotaReached(l.bps, rounded, l.hz, s.bytesDisp + size);
    MulMono(l.iops, ios, rounded);
    QuotaReached(l.iops, rounded, l.hz, s.ioDisp + 1);
  }

  /** From its due time on the first attempt within the slice lets a bio go,
      whatever looks and attempts, early or not, came before. */
  lemma {:induction false} DueGoes(l: Limit, s: Lane, es: seq<Event>, now: nat, size: nat)
    requires l.Valid() && s.ioDisp < UINT_MAX && Fruitless(l, s, es)
    requires DueTime(l, s, size) <= now <= Run(l, s, es).end
    ensures AdmittedNow(l, Run(l, s, es), Submit(now, size)) == [size]
  {
    hide Run, DueTime, Wait, MayDispatch;
    FruitlessKeeps(l, s, es);
    var r := Run(l, s, es);
    SameDue(l, s, r.end, size);
    NextInSlice(l, r, now, size);
    DueFree(l, r, now, size);
  }

  lemma SameDue(l: Limit, s: Lane, end: nat, size: nat)
    requires l.Valid()
    ensures DueTime(l, s.(end := end), size) == DueTime(l, s, size) >= s.start
  {
  }

  /** A bio held up by the byte limit alone is due at most a tick after the wait
      it is told; held up by the bios limit, that limit is due by then. */
  lemma DueAfterWait(l: Limit, s: Lane, now: nat, size: nat)
    requires l.Valid() && s.start <= now && Wait(l, s, now, size) > 0
    ensures var later := now + Wait(l, s, now, size);
            if BpsWait(l, s, now, size) > 0 then s.start + TicksNeeded(s.bytesDisp + size, l.bps, l.hz) <= later + 1
            else s.start + TicksNeeded(s.ioDisp + 1, l.iops, l.hz) <= later
  {
    var later := now + Wait(l, s, now, size);
    if BpsWait(l, s, now, size) > 0 {
      BytesLater(l, s, now, size);
    } else {
      var x := TicksFor(s.ioDisp + 1, l.iops, l.hz);
      hide TicksFor, Quota, ElapsedRounded;
      assert later - s.start >= x + 1;
      NeededWithin(s.ioDisp + 1, l.iops, l.hz);
    }
  }

  lemma NeededWithin(amount: nat, rate: nat, hz: nat)
    requires rate > 0
    ensures TicksNeeded(amount, rate, hz) <= TicksFor(amount, rate, hz) + 1
  {
  }

  lemma NeededBy(amount: nat, rate: nat, hz: nat, ticks: nat)
    requires rate > 0 && amount * hz <= rate * ticks
    ensures TicksNeeded(amount, rate, hz) <= ticks
  {
    var x := TicksFor(amount, rate, hz);
    assert amount * hz == x * rate + amount * hz % rate;
    if x * rate == amount * hz {
      MulCancel(x, ticks + 1, rate);
    } else {
      MulCancel(x, ticks, rate);
    }
  }

  lemma BytesLater(l: Limit, s: Lane, now: nat, size: nat)
    requires l.Valid() && s.start <= now && BpsWait(l, s, now, size) > 0
    ensures s.start + TicksNeeded(s.bytesDisp + size, l.bps, l.hz) <= now + BpsWait(l, s, now, size) + 1
  {
    var later := now + BpsWait(l, s, now, size);
    var rounded, allowed := ElapsedRounded(l, s, now), BytesAllowed(l, s, now);
    ElapsedBounds(l, s, now);
    var extra := s.bytesDisp + size - allowed;
    var x := TicksFor(extra, l.bps, l.hz);
    assert later - s.start >= rounded + x;
    hide Quota, TicksFor, ElapsedRounded, BpsWait, TicksNeeded;
    QuotaCovers(l.bps, rounded, l.hz, allowed);
    TicksReached(extra, l.bps, l.hz);
    NearBy(l.bps, l.hz, allowed, extra, rounded, x, later - s.start);
    NeededBy(s.bytesDisp + size, l.bps, l.hz, later - s.start + 1);
  }
  // ------------------------------------------------------------- not too long

  lemma NeededIs(amount: nat, rate: nat, hz: nat)
    requires rate > 0
    ensures TicksFor(amount, rate, hz) <= TicksNeeded(amount, rate, hz)
    ensures amount > 0 && hz > 0 ==> TicksNeeded(amount, rate, hz) > 0
  {
    hide TicksFor;
    if amount > 0 && hz > 0 {
      assert amount * hz > 0;
    }
  }

  /** The time already allowed for and the ticks of the missing bytes are less
      than the ticks of all bytes and of one byte more. */
  lemma NotBeyond(rate: nat, hz: nat, allowed: nat, extra: nat, rounded: nat, x: nat, all: nat, one: nat)
    requires rate * rounded < allowed * hz + hz && x * rate <= extra * hz
    requires (allowed + extra) * hz <= rate * all && hz <= rate * one
    ensures rounded + x < all + one
  {
    assert (allowed + extra) * hz == allowed * hz + extra * hz;
    assert (rounded + x) * rate == rate * rounded + x * rate;
    assert (all + one) * rate == rate * all + rate * one;
    MulCancel(rounded + x, all + one, rate);
  }

  lemma TicksWithin(amount: nat, rate: nat, hz: nat)
    requires rate > 0
    ensures TicksFor(amount, rate, hz) * rate <= amount * hz
  {
    assert amount * hz == TicksFor(amount, rate, hz) * rate + amount * hz % rate;
  }

  lemma BytesSoon(l: Limit, s: Lane, now: nat, size: nat)
    requires l.Valid() && s.start <= now && BpsWait(l, s, now, size) > 0
    ensures now + BpsWait(l, s, now, size) <=
            s.start + TicksNeeded(s.bytesDisp + size, l.bps, l.hz) + TicksNeeded(1, l.bps, l.hz)
  {
    var rounded, allowed := ElapsedRounded(l, s, now), BytesAllowed(l, s, now);
    ElapsedBounds(l, s, now);
    var extra := s.bytesDisp + size - allowed;
    var x := TicksFor(extra, l.bps, l.hz);
    assert now + BpsWait(l, s, now, size) == s.start + rounded + if x == 0 then 1 else x;
    assert l.bps * rounded < allowed * l.hz + l.hz;
    hide Quota, TicksFor, ElapsedRounded, BpsWait, TicksNeeded;
    TicksWithin(extra, l.bps, l.hz);
    NotBeyond(l.bps, l.hz, allowed, extra, rounded, x, TicksNeeded(s.bytesDisp + size, l.bps, l.hz),
              TicksNeeded(1, l.bps, l.hz));
  }

  /** A wait is not longer than it has to be: a bio held up by the byte limit is
      told to come back no later than what its rate needs for one byte after the
      bytes are due; held up by the bios limit, no later than a tick after that
      is due. */
  lemma WaitIsShort(l: Limit, s: Lane, now: nat, size: nat)
    requires l.Valid() && s.start <= now && Wait(l, s, now, size) > 0
    ensures var later := now + Wait(l, s, now, size);
            if BpsWait(l, s, now, size) > 0 then
              later <= s.start + TicksNeeded(s.bytesDisp + size, l.bps, l.hz) + TicksNeeded(1, l.bps, l.hz)
            else later == now + 1 || later <= s.start + TicksNeeded(s.ioDisp + 1, l.iops, l.hz) + 1
  {
    if BpsWait(l, s, now, size) > 0 {
      BytesSoon(l, s, now, size);
    } else {
      NeededIs(s.ioDisp + 1, l.iops, l.hz);
      hide TicksFor, TicksNeeded, IosAllowed, BpsWait;
    }
  }

  /** When a bio at the head of a list is looked at again at the latest. */
  function Latest(l: Limit, s: Lane, now: nat, size: nat): nat
    requires l.Valid()
  {
    Later(now + 1, s.start + Later(TicksNeeded(s.bytesDisp + size, l.bps, l.hz) + TicksNeeded(1, l.bps, l.hz),
                                   TicksNeeded(s.ioDisp + 1, l.iops, l.hz) + 1))
  }

  function Later(a: nat, b: nat): nat {
    if a >= b then a else b
  }

  lemma LookIsSoon(l: Limit, s: Lane, now: nat, size: nat)
    requires l.Valid() && MayDispatch(l, s, now, size).0 == s
    ensures s.start <= now && now + MayDispatch(l, s, now, size).1 <= Latest(l, s, now, size)
  {
    NextInSlice(l, s, now, size);
    hide MayDispatch, Wait, TicksNeeded;
    if Wait(l, s, now, size) > 0 {
      WaitIsShort(l, s, now, size);
    }
  }

  // ------------------------------------------------------ what a trim gives back

  /** What two stretches of time allow together is what they allow apart, or one
      unit more. */
  lemma QuotaParts(rate: nat, a: nat, b: nat, hz: nat)
    requires hz > 0
    ensures Quota(rate, a, hz) + Quota(rate, b, hz) <= Quota(rate, a + b, hz)
            <= Quota(rate, a, hz) + Quota(rate, b, hz) + 1
  {
    var p, q, r := Quota(rate, a, hz), Quota(rate, b, hz), Quota(rate, a + b, hz);
    hide Quota;
    assert rate * (a + b) == rate * a + rate * b;
    PartsAre(rate * a, rate * b, hz, p, q, r);
  }

  lemma PartsAre(x: nat, y: nat, hz: nat, p: nat, q: nat, r: nat)
    requires p * hz <= x < p * hz + hz && q * hz <= y < q * hz + hz && r * hz <= x + y < r * hz + hz
    ensures p + q <= r <= p + q + 1
  {
    Distribute(p, q, hz);
    Distribute(p + q, 2, hz);
    Distribute(r, 1, hz);
    MulCancel(p + q, r + 1, hz);
    MulCancel(r, p + q + 2, hz);
  }

  lemma Distribute(a: nat, b: nat, k: nat)
    ensures (a + b) * k == a * k + b * k
  {
  }

  lemma ElapsedShifted(l: Limit, s: Lane, r: Lane, later: nat, n: nat)
    requires l.Valid() && r.start == s.start + n * l.Slice() < later
    ensures ElapsedRounded(l, s, later) == ElapsedRounded(l, r, later) + n * l.Slice()
  {
    var k, e := l.Slice(), later - r.start;
    var q := (e + (k - 1)) / k;
    assert e + (k - 1) == q * k + (e + (k - 1)) % k;
    assert (e + n * k + (k - 1)) / k == q + n by {
      assert (q + n) * k == q * k + n * k;
      QuotientIs(e + n * k + (k - 1), k, q + n, (e + (k - 1)) % k);
    }
    assert (q + n) * k == q * k + n * k;
  }

  lemma ElapsedTrimmed(l: Limit, s: Lane, now: nat, later: nat)
    requires l.Valid() && s.start <= now && s.start + WholeSlices(l, s, now) < later
    ensures var ticks := WholeSlices(l, s, now);
            ElapsedRounded(l, s, later) == ElapsedRounded(l, s.(start := s.start + ticks), later) + ticks
  {
    ElapsedShifted(l, s, s.(start := s.start + WholeSlices(l, s, now)), later, (now - s.start) / l.Slice());
  }

  /** A meter before and after a trim: how much it leaves free at a time is the
      same, or one unit less; or the time has paid for all that was charged. */
  predicate RoomKept(rate: nat, hz: nat, disp: nat, rounded: nat, disp': nat, rounded': nat)
    requires hz > 0
  {
    var paid := Quota(rate, rounded, hz) - Quota(rate, rounded', hz);
    disp <= disp' + paid <= disp + 1 || (disp' == 0 && disp <= paid)
  }

  lemma MeterTrimmed(rate: nat, hz: nat, disp: nat, rounded: nat, ticks: nat)
    requires hz > 0
    ensures RoomKept(rate, hz, disp, rounded + ticks, MonusNat(disp, Quota(rate, ticks, hz)), rounded)
  {
    QuotaParts(rate, rounded, ticks, hz);
    hide Quota;
  }

  /** A trim changes what the limits answer later by at most one byte and one bio:
      it takes the whole slices gone by off the time, and what they allowed off
      what is charged. So trimming does not slow a group down. */
  lemma TrimKeepsRoom(l: Limit, s: Lane, now: nat, later: nat)
    requires l.Valid() && !SliceUsed(s, now) && TrimSlice(l, s, now).start < later
    ensures var r := TrimSlice(l, s, now);
            && s.start < later
            && RoomKept(l.bps, l.hz, s.bytesDisp, ElapsedRounded(l, s, later), r.bytesDisp, ElapsedRounded(l, r, later))
            && RoomKept(l.iops, l.hz, s.ioDisp, ElapsedRounded(l, s, later), r.ioDisp, ElapsedRounded(l, r, later))
  {
    var r := TrimSlice(l, s, now);
    var ticks := WholeSlices(l, s, now);
    if r.start != s.start {
      ElapsedTrimmed(l, s, now, later);
      hide Quota, WholeSlices, RoundUp;
      assert ElapsedRounded(l, r, later) == ElapsedRounded(l, s.(start := s.start + ticks), later);
      hide ElapsedRounded, RoomKept;
      MeterTrimmed(l.bps, l.hz, s.bytesDisp, ElapsedRounded(l, r, later), ticks);
      MeterTrimmed(l.iops, l.hz, s.ioDisp, ElapsedRounded(l, r, later), ticks);
    } else {
      hide Quota, WholeSlices, RoundUp;
      assert ElapsedRounded(l, r, later) == ElapsedRounded(l, s, later);
    }
  }
  // ---------------------------------------------------------- how long a slice is

  /** A look leaves a slice that lasts for one slice interval more and for the
      wait that is told, and no longer than the next multiple of the interval,
      unless it did before. */
  lemma SliceEnds(l: Limit, s: Lane, now: nat, size: nat)
    requires l.Valid()
    ensures var (r, wait) := MayDispatch(l, s, now, size);
            && now + l.Slice() <= r.end && now + wait <= r.end
            && (r.end < now + Later(l.Slice(), wait) + l.Slice() || (s.start <= now <= s.end && r.end == s.end))
  {
    RoundUpBounds(now + l.Slice(), l.Slice());
    var wait := Wait(l, Renew(l, s, now), now, size);
    RoundUpBounds(now + wait, l.Slice());
    hide Wait, RoundUp;
  }

  /** A dispatch cuts the slice back to that, however long it was. */
  lemma TrimEnds(l: Limit, s: Lane, now: nat)
    requires l.Valid() && s.start <= now <= s.end
    ensures now + l.Slice() <= TrimSlice(l, s, now).end < now + 2 * l.Slice()
  {
    RoundUpBounds(now + l.Slice(), l.Slice());
    hide RoundUp, Quota, WholeSlices;
  }
}

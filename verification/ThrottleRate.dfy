/** The time slices of block/blk-throttle.c: how one direction of a throttled
    group starts, extends and trims its slice, and what that bounds over a run.

    Clock values are `jiffies` as natural numbers, and both limits are finite.
 */
module ThrottleRate {

  const UINT_MAX: nat := 0xFFFF_FFFF

  /** Limits of a group in one direction; `hz` is the tick rate. */
  datatype Limit = Limit(hz: nat, bps: nat, iops: nat) {
    predicate Valid() {
      hz >= 10 && bps > 0 && iops > 0
    }

    /** throtl_slice: a tenth of a second. */
    function Slice(): nat {
      hz / 10
    }
  }

  /** One direction of a throtl_grp; the last two fields are the blkio
      dispatch statistics, which only ever grow. */
  datatype Lane = Lane(bytesDisp: nat, ioDisp: nat, start: nat, end: nat,
                       bytesServed: nat, iosServed: nat)

  function RoundUp(x: nat, y: nat): nat
    requires y > 0
  {
    (x + (y - 1)) / y * y
  }

  function StartNewSlice(l: Limit, s: Lane, now: nat): Lane {
    s.(bytesDisp := 0, ioDisp := 0, start := now, end := now + l.Slice())
  }

  function SetSliceEnd(l: Limit, s: Lane, end: nat): Lane
    requires l.Valid()
  {
    s.(end := RoundUp(end, l.Slice()))
  }

  predicate SliceUsed(s: Lane, now: nat) {
    !(s.start <= now <= s.end)
  }

  /** What a rate of `rate` per second allows in `ticks` ticks, rounded down. */
  function Quota(rate: nat, ticks: nat, hz: nat): (q: nat)
    requires hz > 0
    ensures q * hz <= rate * ticks < q * hz + hz
  {
    rate * ticks / hz
  }

  /** The fraction, in units of 1/hz, that the quota rounds away. */
  function Lost(rate: nat, ticks: nat, hz: nat): (lost: nat)
    requires hz > 0
    ensures lost < hz && rate * ticks == Quota(rate, ticks, hz) * hz + lost
  {
    rate * ticks % hz
  }

  /** Ticks that `rate` per second needs for `amount`, rounded down. */
  function TicksFor(amount: nat, rate: nat, hz: nat): nat
    requires rate > 0
  {
    amount * hz / rate
  }

  function MonusNat(x: nat, y: nat): nat {
    if x >= y then x - y else 0
  }

  /** The ticks of the whole slices that have gone by since the slice started. */
  function WholeSlices(l: Limit, s: Lane, now: nat): (ticks: nat)
    requires l.Valid() && s.start <= now
    ensures ticks <= now - s.start < ticks + l.Slice()
  {
    (now - s.start) / l.Slice() * l.Slice()
  }

  /** throtl_trim_slice: give back the whole slices that have gone by. */
  function TrimSlice(l: Limit, s: Lane, now: nat): Lane
    requires l.Valid()
  {
    if SliceUsed(s, now) then s
    else
      var s1 := SetSliceEnd(l, s, now + l.Slice());
      var ticks := WholeSlices(l, s, now);
      var bytesTrim := Quota(l.bps, ticks, l.hz);
      var ioTrim := Quota(l.iops, ticks, l.hz);
      if ticks == 0 || (bytesTrim == 0 && ioTrim == 0) then s1
      else s1.(bytesDisp := MonusNat(s.bytesDisp, bytesTrim),
               ioDisp := MonusNat(s.ioDisp, ioTrim),
               start := s.start + ticks)
  }

  /** The elapsed time both checks use: rounded up to whole slices, at least one. */
  function ElapsedRounded(l: Limit, s: Lane, now: nat): nat
    requires l.Valid() && s.start <= now
  {
    RoundUp(if now == s.start then l.Slice() else now - s.start, l.Slice())
  }

  function BytesAllowed(l: Limit, s: Lane, now: nat): nat
    requires l.Valid() && s.start <= now
  {
    Quota(l.bps, ElapsedRounded(l, s, now), l.hz)
  }

  function IosAllowed(l: Limit, s: Lane, now: nat): nat
    requires l.Valid() && s.start <= now
  {
    var tmp := Quota(l.iops, ElapsedRounded(l, s, now), l.hz);
    if tmp > UINT_MAX then UINT_MAX else tmp
  }

  /** tg_with_in_bps_limit: 0 when within the limit, else the ticks to wait. */
  function BpsWait(l: Limit, s: Lane, now: nat, size: nat): nat
    requires l.Valid() && s.start <= now
  {
    var allowed := BytesAllowed(l, s, now);
    if s.bytesDisp + size <= allowed then 0
    else
      var wait := TicksFor(s.bytesDisp + size - allowed, l.bps, l.hz);
      var rounding := MonusNat(ElapsedRounded(l, s, now), now - s.start);
      (if wait == 0 then 1 else wait) + rounding
  }

  /** tg_with_in_iops_limit: 0 when within the limit, else the ticks to wait. */
  function IopsWait(l: Limit, s: Lane, now: nat): nat
    requires l.Valid() && s.start <= now
  {
    if s.ioDisp + 1 <= IosAllowed(l, s, now) then 0
    else
      var wait := TicksFor(s.ioDisp + 1, l.iops, l.hz) + 1;
      if wait > now - s.start then wait - (now - s.start) else 1
  }

  /** The slice renewal at the head of tg_may_dispatch. */
  function Renew(l: Limit, s: Lane, now: nat): Lane
    requires l.Valid()
  {
    if SliceUsed(s, now) then StartNewSlice(l, s, now)
    else if s.end < now + l.Slice() then SetSliceEnd(l, s, now + l.Slice())
    else s
  }

  /** The wait of tg_may_dispatch on a renewed slice; the iops check is only
      reached when the bps check passes. */
  function Wait(l: Limit, s: Lane, now: nat, size: nat): nat
    requires l.Valid() && s.start <= now
  {
    var bpsWait := BpsWait(l, s, now, size);
    if bpsWait > 0 then bpsWait else IopsWait(l, s, now)
  }

  /** tg_may_dispatch: the slice afterwards and the wait (0: may go now). */
  function MayDispatch(l: Limit, s: Lane, now: nat, size: nat): (r: (Lane, nat))
    requires l.Valid()
    ensures r.0.start <= now <= r.0.end
  {
    var s1 := Renew(l, s, now);
    RoundUpBounds(now + l.Slice(), l.Slice());
    var wait := Wait(l, s1, now, size);
    RoundUpBounds(now + wait, l.Slice());
    if wait > 0 && s1.end < now + wait then (SetSliceEnd(l, s1, now + wait), wait)
    else (s1, wait)
  }

  /** throtl_charge_bio. */
  function Charge(s: Lane, size: nat): Lane {
    s.(bytesDisp := s.bytesDisp + size, ioDisp := s.ioDisp + 1,
       bytesServed := s.bytesServed + size, iosServed := s.iosServed + 1)
  }

  /** What can happen to a lane: its head bio is only looked at
      (tg_update_disptime), or is sent if it may go. */
  datatype Event = Probe(now: nat, size: nat) | Submit(now: nat, size: nat)

  function Step(l: Limit, s: Lane, e: Event): Lane
    requires l.Valid()
  {
    var (s1, wait) := MayDispatch(l, s, e.now, e.size);
    if e.Submit? && wait == 0 then TrimSlice(l, Charge(s1, e.size), e.now) else s1
  }

  function Run(l: Limit, s: Lane, es: seq<Event>): Lane
    requires l.Valid()
    decreases |es|
  {
    if es == [] then s else Run(l, Step(l, s, es[0]), es[1..])
  }

  /** The clock never runs backwards along `es`, and ends no later than `t`. */
  predicate InOrder(now: nat, es: seq<Event>, t: nat)
    decreases |es|
  {
    if es == [] then now <= t else now <= es[0].now && InOrder(es[0].now, es[1..], t)
  }

  lemma {:induction false} RunConcat(l: Limit, s: Lane, es: seq<Event>, es': seq<Event>)
    requires l.Valid()
    ensures Run(l, s, es + es') == Run(l, Run(l, s, es), es')
    decreases |es|
  {
    if es == [] {
      assert es + es' == es';
    } else {
      assert (es + es')[1..] == es[1..] + es';
      RunConcat(l, Step(l, s, es[0]), es[1..], es');
    }
  }

  lemma {:induction false} InOrderConcat(now: nat, es: seq<Event>, mid: nat, es': seq<Event>, t: nat)
    requires InOrder(now, es, mid) && InOrder(mid, es', t)
    ensures InOrder(now, es + es', t)
    decreases |es|
  {
    if es == [] {
      assert es + es' == es';
    } else {
      assert (es + es')[1..] == es[1..] + es';
      InOrderConcat(es[0].now, es[1..], mid, es', t);
    }
  }

  /** The bio of an event, if it is let go. */
  function AdmittedNow(l: Limit, s: Lane, e: Event): seq<nat>
    requires l.Valid()
  {
    if e.Submit? && MayDispatch(l, s, e.now, e.size).1 == 0 then [e.size] else []
  }

  /** The sizes of the bios a run lets go, in order. */
  function Admitted(l: Limit, s: Lane, es: seq<Event>): seq<nat>
    requires l.Valid()
    decreases |es|
  {
    if es == [] then [] else AdmittedNow(l, s, es[0]) + Admitted(l, Step(l, s, es[0]), es[1..])
  }

  function Sum(sizes: seq<nat>): nat {
    if sizes == [] then 0 else sizes[0] + Sum(sizes[1..])
  }

  lemma {:induction false} AdmittedConcat(l: Limit, s: Lane, es: seq<Event>, es': seq<Event>)
    requires l.Valid()
    ensures Admitted(l, s, es + es') == Admitted(l, s, es) + Admitted(l, Run(l, s, es), es')
    decreases |es|
  {
    hide Step, AdmittedNow;
    if es == [] {
      assert es + es' == es';
    } else {
      assert (es + es')[1..] == es[1..] + es';
      AdmittedConcat(l, Step(l, s, es[0]), es[1..], es');
    }
  }

  lemma StepServed(l: Limit, s: Lane, e: Event)
    requires l.Valid()
    ensures var r, a := Step(l, s, e), AdmittedNow(l, s, e);
            r.bytesServed == s.bytesServed + Sum(a) && r.iosServed == s.iosServed + |a|
  {
    hide Wait, RoundUp, Quota, WholeSlices;
  }

  lemma {:induction false} SumConcat(a: seq<nat>, b: seq<nat>)
    ensures Sum(a + b) == Sum(a) + Sum(b)
  {
    if a == [] {
      assert a + b == b;
    } else {
      assert (a + b)[1..] == a[1..] + b;
      SumConcat(a[1..], b);
    }
  }

  /** The dispatch statistics of a lane are those of the bios it let go. */
  lemma {:induction false} RunServed(l: Limit, s: Lane, es: seq<Event>)
    requires l.Valid()
    ensures var r, a := Run(l, s, es), Admitted(l, s, es);
            r.bytesServed == s.bytesServed + Sum(a) && r.iosServed == s.iosServed + |a|
    decreases |es|
  {
    if es != [] {
      hide Step, AdmittedNow;
      StepServed(l, s, es[0]);
      RunServed(l, Step(l, s, es[0]), es[1..]);
      SumConcat(AdmittedNow(l, s, es[0]), Admitted(l, Step(l, s, es[0]), es[1..]));
    }
  }

  // ------------------------------------------------- the account of one quantity

  /** The account of one metered quantity (bytes or bios) since time `s0`:
      `disp` is charged to the current slice, `total` was charged since `s0`.
      What earlier slices took is paid for by the time before `start`, and the
      whole is paid for both one slice from `now` and by the end of the slice. */
  ghost predicate Paid(rate: nat, hz: nat, slice: nat, s0: nat, start: nat, end: nat, now: nat,
                       disp: nat, total: nat)
  {
    && s0 <= start <= now
    && disp <= total
    && (total - disp) * hz <= rate * (start - s0)
    && total * hz <= rate * (now - s0 + slice)
    && total * hz <= rate * (end - s0)
  }

  lemma MulMono(k: nat, a: int, b: int)
    requires a <= b
    ensures k * a <= k * b
  {
  }

  lemma PaidLater(rate: nat, hz: nat, slice: nat, s0: nat, start: nat, end: nat, now: nat,
                  disp: nat, total: nat, end': nat, now': nat)
    requires Paid(rate, hz, slice, s0, start, end, now, disp, total)
    requires now <= now' && end <= end'
    ensures Paid(rate, hz, slice, s0, start, end', now', disp, total)
  {
    MulMono(rate, now - s0 + slice, now' - s0 + slice);
    MulMono(rate, end - s0, end' - s0);
  }

  /** A slice that has run out has paid for everything charged so far. */
  lemma PaidNewSlice(rate: nat, hz: nat, slice: nat, s0: nat, start: nat, end: nat, now: nat,
                     disp: nat, total: nat, now': nat)
    requires Paid(rate, hz, slice, s0, start, end, now, disp, total)
    requires now <= now' && end < now'
    ensures Paid(rate, hz, slice, s0, now', now' + slice, now', 0, total)
  {
    MulMono(rate, end - s0, now' - s0);
    MulMono(rate, end - s0, now' - s0 + slice);
  }

  lemma PaidCharge(rate: nat, hz: nat, slice: nat, s0: nat, start: nat, end: nat, now: nat,
                   disp: nat, total: nat, size: nat, rounded: nat)
    requires Paid(rate, hz, slice, s0, start, end, now, disp, total)
    requires end >= now + slice && rounded <= now - start + slice
    requires (disp + size) * hz <= rate * rounded
    ensures Paid(rate, hz, slice, s0, start, end, now, disp + size, total + size)
  {
    assert (total + size) * hz <= rate * (start - s0) + rate * rounded;
    assert rate * (start - s0) + rate * rounded == rate * (start - s0 + rounded);
    MulMono(rate, start - s0 + rounded, now - s0 + slice);
    MulMono(rate, start - s0 + rounded, end - s0);
  }

  lemma PaidTrim(rate: nat, hz: nat, slice: nat, s0: nat, start: nat, end: nat, now: nat,
                 disp: nat, total: nat, ticks: nat, trim: nat)
    requires Paid(rate, hz, slice, s0, start, end, now, disp, total)
    requires start + ticks <= now && trim * hz <= rate * ticks
    ensures Paid(rate, hz, slice, s0, start + ticks, end, now, MonusNat(disp, trim), total)
  {
    var back := disp - MonusNat(disp, trim);
    assert back <= trim;
    MulMono(hz, back, trim);
    assert (total - disp + back) * hz == (total - disp) * hz + back * hz;
    assert rate * (start - s0) + rate * ticks == rate * (start + ticks - s0);
  }

  // --------------------------------------------------------------- one step, a run

  lemma RoundUpBounds(x: nat, y: nat)
    requires y > 0
    ensures x <= RoundUp(x, y) < x + y
  {
    var q := (x + (y - 1)) / y;
    var m := (x + (y - 1)) % y;
    assert x + (y - 1) == q * y + m;
  }

  lemma RoundUpIs(x: nat, k: nat, q: nat)
    requires k > 0 && q > 0 && (q - 1) * k < x <= q * k
    ensures RoundUp(x, k) == q * k
  {
    assert q * k == (q - 1) * k + k;
    QuotientIs(x + (k - 1), k, q, x + (k - 1) - q * k);
  }

  lemma ElapsedBounds(l: Limit, s: Lane, now: nat)
    requires l.Valid() && s.start <= now
    ensures now - s.start <= ElapsedRounded(l, s, now) <= now - s.start + l.Slice()
  {
    var k := l.Slice();
    RoundUpBounds(if now == s.start then k else now - s.start, k);
    RoundUpIs(k, k, 1);
    hide RoundUp;
  }

  /** The two metered quantities. */
  datatype Meter = Bytes | Ios

  function Rate(l: Limit, m: Meter): nat {
    if m.Bytes? then l.bps else l.iops
  }

  function Disp(s: Lane, m: Meter): nat {
    if m.Bytes? then s.bytesDisp else s.ioDisp
  }

  function Served(s: Lane, m: Meter): nat {
    if m.Bytes? then s.bytesServed else s.iosServed
  }

  /** All that `s` was charged since `origin`, and what `origin` had already
      charged to its own slice. */
  function Total(origin: Lane, s: Lane, m: Meter): int {
    Disp(origin, m) + Served(s, m) - Served(origin, m)
  }

  ghost predicate Accounted(l: Limit, m: Meter, origin: Lane, s: Lane, now: nat) {
    && Served(origin, m) <= Served(s, m)
    && Paid(Rate(l, m), l.hz, l.Slice(), origin.start, s.start, s.end, now, Disp(s, m), Total(origin, s, m))
  }

  lemma RenewAccounted(l: Limit, m: Meter, origin: Lane, s: Lane, now: nat, now': nat)
    requires l.Valid() && Accounted(l, m, origin, s, now) && now <= now'
    ensures Accounted(l, m, origin, Renew(l, s, now'), now')
    ensures Renew(l, s, now').end >= now' + l.Slice()
  {
    RoundUpBounds(now' + l.Slice(), l.Slice());
    if SliceUsed(s, now') {
      PaidNewSlice(Rate(l, m), l.hz, l.Slice(), origin.start, s.start, s.end, now,
                   Disp(s, m), Total(origin, s, m), now');
    } else {
      PaidLater(Rate(l, m), l.hz, l.Slice(), origin.start, s.start, s.end, now,
                Disp(s, m), Total(origin, s, m), Renew(l, s, now').end, now');
    }
  }

  function Cost(m: Meter, size: nat): nat {
    if m.Bytes? then size else 1
  }

  lemma WithinQuota(l: Limit, m: Meter, s: Lane, now: nat, size: nat)
    requires l.Valid() && s.start <= now && Wait(l, s, now, size) == 0
    ensures Disp(s, m) + Cost(m, size) <= Quota(Rate(l, m), ElapsedRounded(l, s, now), l.hz)
  {
  }

  lemma QuotaCovers(rate: nat, ticks: nat, hz: nat, x: nat)
    requires hz > 0 && x <= Quota(rate, ticks, hz)
    ensures x * hz <= rate * ticks
  {
    MulMono(hz, x, Quota(rate, ticks, hz));
  }

  lemma ChargeAccounted(l: Limit, m: Meter, origin: Lane, s: Lane, now: nat, size: nat)
    requires l.Valid() && Accounted(l, m, origin, s, now)
    requires s.end >= now + l.Slice() && Wait(l, s, now, size) == 0
    ensures Accounted(l, m, origin, Charge(s, size), now)
  {
    var rounded, cost := ElapsedRounded(l, s, now), Cost(m, size);
    ElapsedBounds(l, s, now);
    WithinQuota(l, m, s, now, size);
    hide Quota, Wait, ElapsedRounded, Paid;
    QuotaCovers(Rate(l, m), rounded, l.hz, Disp(s, m) + cost);
    PaidCharge(Rate(l, m), l.hz, l.Slice(), origin.start, s.start, s.end, now,
               Disp(s, m), Total(origin, s, m), cost, rounded);
  }

  /** Trimming may bring the end of the slice forward: one slice from now is
      still enough to pay. */
  lemma TrimAccounted(l: Limit, m: Meter, origin: Lane, s: Lane, now: nat)
    requires l.Valid() && Accounted(l, m, origin, s, now)
    ensures Accounted(l, m, origin, TrimSlice(l, s, now), now)
  {
    if !SliceUsed(s, now) {
      RoundUpBounds(now + l.Slice(), l.Slice());
      var end := RoundUp(now + l.Slice(), l.Slice());
      MulMono(Rate(l, m), now - origin.start + l.Slice(), end - origin.start);
      assert Accounted(l, m, origin, s.(end := end), now);
      var ticks := WholeSlices(l, s, now);
      PaidTrim(Rate(l, m), l.hz, l.Slice(), origin.start, s.start, end, now,
               Disp(s, m), Total(origin, s, m), ticks, Quota(Rate(l, m), ticks, l.hz));
    }
  }

  lemma StepAccounted(l: Limit, m: Meter, origin: Lane, s: Lane, now: nat, e: Event)
    requires l.Valid() && Accounted(l, m, origin, s, now) && now <= e.now
    ensures Accounted(l, m, origin, Step(l, s, e), e.now)
  {
    var s1 := Renew(l, s, e.now);
    RenewAccounted(l, m, origin, s, now, e.now);
    var wait := Wait(l, s1, e.now, e.size);
    if wait == 0 {
      if e.Submit? {
        ChargeAccounted(l, m, origin, s1, e.now, e.size);
        TrimAccounted(l, m, origin, Charge(s1, e.size), e.now);
      }
    } else if s1.end < e.now + wait {
      var end := RoundUp(e.now + wait, l.Slice());
      RoundUpBounds(e.now + wait, l.Slice());
      PaidLater(Rate(l, m), l.hz, l.Slice(), origin.start, s1.start, s1.end, e.now,
                Disp(s1, m), Total(origin, s1, m), end, e.now);
    }
  }

  lemma {:induction false} RunAccounted(l: Limit, m: Meter, origin: Lane, s: Lane, now: nat, es: seq<Event>, t: nat)
    requires l.Valid() && Accounted(l, m, origin, s, now) && InOrder(now, es, t)
    ensures Accounted(l, m, origin, Run(l, s, es), t)
    decreases |es|
  {
    if es == [] {
      PaidLater(Rate(l, m), l.hz, l.Slice(), origin.start, s.start, s.end, now,
                Disp(s, m), Total(origin, s, m), s.end, t);
    } else {
      StepAccounted(l, m, origin, s, now, es[0]);
      RunAccounted(l, m, origin, Step(l, s, es[0]), es[0].now, es[1..], t);
    }
  }

  // ------------------------------------------------------------------ the rate bound

  /** The current slice alone is paid for. */
  ghost predicate Settled(l: Limit, m: Meter, s: Lane, now: nat) {
    Accounted(l, m, s, s, now)
  }

  /** From the start of any settled slice, for any mix of probes, dispatches,
      new slices, extensions and trims: by time `t` the direction has been
      charged no more than its rate allows for the time gone by plus one slice. */
  lemma {:induction false} RateBound(l: Limit, m: Meter, s: Lane, now: nat, es: seq<Event>, t: nat)
    requires l.Valid() && Settled(l, m, s, now) && InOrder(now, es, t)
    ensures Total(s, Run(l, s, es), m) * l.hz <= Rate(l, m) * (t - s.start + l.Slice())
  {
    RunAccounted(l, m, s, s, now, es, t);
  }

  /** Every new slice is settled, whatever the limit, so the bound holds from it. */
  lemma {:induction false} NewSliceBound(l: Limit, m: Meter, s: Lane, start: nat, es: seq<Event>, t: nat)
    requires l.Valid() && InOrder(start, es, t)
    ensures var r := Run(l, StartNewSlice(l, s, start), es);
            (Served(r, m) - Served(s, m)) * l.hz <= Rate(l, m) * (t - start + l.Slice())
  {
    var s1 := StartNewSlice(l, s, start);
    SettledBy(l, m, s1, start, 0);
    hide Run, Settled, InOrder;
    RateBound(l, m, s1, start, es, t);
    assert Total(s1, Run(l, s1, es), m) == Served(Run(l, s1, es), m) - Served(s, m);
  }

  /** When trimming never rounds a slice into debt. For bytes, which come in any
      number at once: a slice is one tick long, or its quota is a whole number,
      or what is rounded away is less than one tick of the rate. For bios, which
      come one at a time: a slice is one tick long, or one slice and a tick are
      enough for a bio. */
  predicate RoundsClean(l: Limit, m: Meter)
    requires l.Valid()
  {
    || l.Slice() == 1
    || match m
       case Bytes => var lost := Lost(l.bps, l.Slice(), l.hz); lost == 0 || lost + l.bps >= l.hz
       case Ios => l.iops * (l.Slice() + 1) >= l.hz
  }

  /** Every limit of at least `hz` per second rounds clean, and for bios every
      limit of at least ten per second. */
  lemma FastRatesRoundClean(l: Limit, m: Meter)
    requires l.Valid() && Rate(l, m) >= if m.Bytes? then l.hz else 10
    ensures RoundsClean(l, m)
  {
    if m.Ios? {
      MulMono(l.Slice() + 1, 10, l.iops);
    }
  }

  /** The most bios charged to a slice after a trim. */
  function IosCap(l: Limit): nat
    requires l.Valid()
  {
    var q := Quota(l.iops, l.Slice(), l.hz); if q == 0 then 1 else q
  }

  /** The current slice is paid for, and no more than the cap of bios is on it. */
  ghost predicate Kept(l: Limit, m: Meter, s: Lane, now: nat)
    requires l.Valid()
  {
    Settled(l, m, s, now) && (m.Ios? ==> s.ioDisp <= IosCap(l))
  }

  lemma MulDistribute(a: int, b: int, c: int, k: int)
    ensures (a - b - c) * k == a * k - b * k - c * k
  {
  }

  /** Fractions below one cannot add up to two. */
  lemma QuotaCarry(a: nat, b: nat, c: nat, lost: nat, hz: nat)
    requires lost < hz && c * hz < a * hz + hz + (b * hz + lost)
    ensures c - a <= b + if lost == 0 then 0 else 1
  {
    MulDistribute(c, a, b, hz);
    if lost == 0 {
      MulCancel(c - a - b, 1, hz);
    } else {
      MulCancel(c - a - b, 2, hz);
    }
  }

  /** One slice more raises a quota by at most the slice's own quota, rounded
      up; by exactly that quota when it is a whole number. */
  lemma QuotaStep(rate: nat, ticks: nat, slice: nat, hz: nat)
    requires hz > 0
    ensures Quota(rate, ticks + slice, hz) - Quota(rate, ticks, hz)
            <= Quota(rate, slice, hz) + if Lost(rate, slice, hz) == 0 then 0 else 1
  {
    assert rate * (ticks + slice) == rate * ticks + rate * slice;
    QuotaCarry(Quota(rate, ticks, hz), Quota(rate, slice, hz), Quota(rate, ticks + slice, hz), Lost(rate, slice, hz),
               hz);
  }

  lemma CarryCost(more: int, b: nat, lost: nat, rate: nat, hz: nat)
    requires more <= b + if lost == 0 then 0 else 1
    requires lost == 0 || lost + rate >= hz
    ensures more * hz <= b * hz + lost + rate
  {
    MulMono(hz, more, b + if lost == 0 then 0 else 1);
    assert (b + 1) * hz == b * hz + hz;
  }

  lemma MulCancel(a: int, b: int, k: nat)
    requires a * k < b * k
    ensures a < b
  {
  }

  /** A dispatch rounds the time gone by up to whole slices, a trim rounds it
      down: the two differ by one slice, or by none on a slice boundary. */
  lemma RoundedVersusWhole(l: Limit, s: Lane, now: nat)
    requires l.Valid() && s.start < now
    ensures var whole := WholeSlices(l, s, now);
            ElapsedRounded(l, s, now) == if whole == now - s.start then whole else whole + l.Slice()
  {
    var e, k := now - s.start, l.Slice();
    var q, m := e / k, e % k;
    assert e == q * k + m;
    if m == 0 {
      assert (e + (k - 1)) / k == q by { QuotientIs(e + (k - 1), k, q, k - 1); }
    } else {
      assert (e + (k - 1)) / k == q + 1 by { QuotientIs(e + (k - 1), k, q + 1, m - 1); }
    }
  }

  lemma QuotientIs(x: nat, k: nat, q: nat, m: nat)
    requires k > 0 && m < k && x == q * k + m
    ensures x / k == q
  {
    var d := x / k;
    assert d * k <= x < (d + 1) * k;
    MulCancel(q, d + 1, k);
    assert (q + 1) * k == q * k + k;
    MulCancel(d, q + 1, k);
  }

  lemma SettledBy(l: Limit, m: Meter, s: Lane, now: nat, ticks: nat)
    requires l.Valid() && s.start <= now && now + l.Slice() <= s.end
    requires Disp(s, m) * l.hz <= Rate(l, m) * ticks && ticks <= now - s.start + l.Slice()
    ensures Settled(l, m, s, now)
  {
    MulMono(Rate(l, m), ticks, now - s.start + l.Slice());
    MulMono(Rate(l, m), ticks, s.end - s.start);
  }

  /** What a trim leaves of the bytes is paid for by one slice and one tick. */
  lemma TrimRemainder(rate: nat, slice: nat, hz: nat, disp: nat, ticks: nat)
    requires hz > 0 && disp <= Quota(rate, ticks + slice, hz)
    requires Lost(rate, slice, hz) == 0 || Lost(rate, slice, hz) + rate >= hz
    ensures MonusNat(disp, Quota(rate, ticks, hz)) * hz <= rate * (slice + 1)
  {
    var rest := MonusNat(disp, Quota(rate, ticks, hz));
    QuotaStep(rate, ticks, slice, hz);
    CarryCost(rest, Quota(rate, slice, hz), Lost(rate, slice, hz), rate, hz);
    assert rate * (slice + 1) == rate * slice + rate;
  }

  /** The cap on bios is paid for by one slice and one tick. */
  lemma CapPaid(l: Limit, disp: nat)
    requires l.Valid() && RoundsClean(l, Ios) && l.Slice() > 1 && disp <= IosCap(l)
    ensures disp * l.hz <= l.iops * (l.Slice() + 1)
  {
    MulMono(l.hz, disp, IosCap(l));
    assert l.iops * (l.Slice() + 1) == l.iops * l.Slice() + l.iops;
  }

  lemma QuotaMono(rate: nat, a: nat, b: nat, hz: nat)
    requires hz > 0 && a <= b
    ensures Quota(rate, a, hz) <= Quota(rate, b, hz)
  {
    MulMono(rate, a, b);
    MulCancel(Quota(rate, a, hz), Quota(rate, b, hz) + 1, hz);
  }

  lemma WholeIsNone(l: Limit, s: Lane, now: nat)
    requires l.Valid() && s.start <= now
    ensures var ticks := WholeSlices(l, s, now);
            && (ticks == 0 || ticks >= l.Slice())
            && (ticks == 0 ==> ElapsedRounded(l, s, now) == l.Slice())
            && ElapsedRounded(l, s, now) <= ticks + l.Slice()
  {
    var n, k := (now - s.start) / l.Slice(), l.Slice();
    if n > 0 {
      MulMono(k, 1, n);
    }
    RoundUpIs(k, k, 1);
    if s.start < now {
      RoundedVersusWhole(l, s, now);
    }
    hide RoundUp;
  }

  /** A bio more than the cap only fits if the trim takes one off. */
  lemma IosWithinCap(l: Limit, s: Lane, now: nat)
    requires l.Valid() && s.start <= now && s.ioDisp <= IosCap(l)
    requires s.ioDisp + 1 <= Quota(l.iops, ElapsedRounded(l, s, now), l.hz)
    ensures MonusNat(s.ioDisp + 1, Quota(l.iops, WholeSlices(l, s, now), l.hz)) <= IosCap(l)
    ensures Quota(l.iops, WholeSlices(l, s, now), l.hz) == 0 ==> s.ioDisp + 1 <= IosCap(l)
  {
    var ticks := WholeSlices(l, s, now);
    WholeIsNone(l, s, now);
    if ticks > 0 && Quota(l.iops, ticks, l.hz) == 0 {
      QuotaMono(l.iops, l.Slice(), ticks, l.hz);
      QuotaMono(l.iops, ElapsedRounded(l, s, now), ticks + l.Slice(), l.hz);
      QuotaStep(l.iops, ticks, l.Slice(), l.hz);
    }
  }

  /** The bios left on a slice that was charged one and trimmed. */
  lemma TrimCapped(l: Limit, s: Lane, now: nat, size: nat)
    requires l.Valid() && s.start <= now && s.ioDisp <= IosCap(l)
    requires s.ioDisp + 1 <= Quota(l.iops, ElapsedRounded(l, s, now), l.hz)
    ensures TrimSlice(l, Charge(s, size), now).ioDisp <= IosCap(l) || SliceUsed(s, now)
  {
    IosWithinCap(l, s, now);
    hide Quota, IosCap, ElapsedRounded, RoundUp;
  }

  /** Trimming right after a dispatch leaves a settled slice. */
  lemma TrimSettled(l: Limit, m: Meter, s: Lane, now: nat)
    requires l.Valid() && RoundsClean(l, m) && s.start <= now <= s.end
    requires Disp(s, m) <= Quota(Rate(l, m), ElapsedRounded(l, s, now), l.hz)
    requires m.Ios? ==> TrimSlice(l, s, now).ioDisp <= IosCap(l)
    ensures Settled(l, m, TrimSlice(l, s, now), now)
  {
    var r := TrimSlice(l, s, now);
    var ticks, rounded := WholeSlices(l, s, now), ElapsedRounded(l, s, now);
    RoundUpBounds(now + l.Slice(), l.Slice());
    ElapsedBounds(l, s, now);
    TrimmedLane(l, m, s, now);
    hide Quota, Settled, ElapsedRounded, WholeSlices, RoundUp, TrimSlice, IosCap, Lost;
    if r.start == s.start {
      QuotaCovers(Rate(l, m), rounded, l.hz, Disp(r, m));
      SettledBy(l, m, r, now, rounded);
    } else if ticks == now - s.start {
      SettledBy(l, m, r, now, 0);
    } else {
      if m.Bytes? {
        TrimRemainder(l.bps, l.Slice(), l.hz, Disp(s, m), ticks);
      } else {
        CapPaid(l, r.ioDisp);
      }
      SettledBy(l, m, r, now, l.Slice() + 1);
    }
  }

  /** The lane a trim leaves, for one meter. */
  lemma TrimmedLane(l: Limit, m: Meter, s: Lane, now: nat)
    requires l.Valid() && s.start <= now <= s.end
    requires Disp(s, m) <= Quota(Rate(l, m), ElapsedRounded(l, s, now), l.hz)
    ensures var r, ticks := TrimSlice(l, s, now), WholeSlices(l, s, now);
            && r.end == RoundUp(now + l.Slice(), l.Slice())
            && (r.start == s.start ==> Disp(r, m) <= Disp(s, m))
            && (r.start != s.start ==>
                  && ticks > 0 && r.start == s.start + ticks
                  && Disp(r, m) == MonusNat(Disp(s, m), Quota(Rate(l, m), ticks, l.hz))
                  && (ticks == now - s.start ==> Disp(r, m) == 0)
                  && (ticks != now - s.start ==>
                        Disp(s, m) <= Quota(Rate(l, m), ticks + l.Slice(), l.hz) && l.Slice() > 1))
  {
    if s.start < now {
      RoundedVersusWhole(l, s, now);
    }
    hide Quota, RoundUp;
  }

  lemma StepKept(l: Limit, m: Meter, s: Lane, now: nat, e: Event)
    requires l.Valid() && RoundsClean(l, m) && Kept(l, m, s, now) && now <= e.now
    ensures Kept(l, m, Step(l, s, e), e.now)
  {
    hide Settled, RoundsClean, IosCap, Quota, RoundUp, TrimSlice, Wait;
    var s1 := Renew(l, s, e.now);
    RenewSettled(l, m, s, now, e.now);
    StepIs(l, s, e);
    var wait := Wait(l, s1, e.now, e.size);
    if wait == 0 && e.Submit? {
      WithinQuota(l, m, s1, e.now, e.size);
      if m.Ios? {
        TrimCapped(l, s1, e.now, e.size);
      }
      TrimSettled(l, m, Charge(s1, e.size), e.now);
    } else {
      LaterEnd(l, m, s1, e.now, Step(l, s, e).end);
    }
  }

  /** The cases of a step. */
  lemma StepIs(l: Limit, s: Lane, e: Event)
    requires l.Valid()
    ensures var (s1, r) := (Renew(l, s, e.now), Step(l, s, e));
            && s1.start <= e.now <= s1.end
            && (s1.ioDisp == s.ioDisp || s1.ioDisp == 0)
            && (if e.Submit? && Wait(l, s1, e.now, e.size) == 0 then r == TrimSlice(l, Charge(s1, e.size), e.now)
                else r == s1.(end := r.end) && r.end >= s1.end)
  {
    var s1 := Renew(l, s, e.now);
    RoundUpBounds(e.now + l.Slice(), l.Slice());
    RoundUpBounds(e.now + Wait(l, s1, e.now, e.size), l.Slice());
    hide RoundUp, Wait, TrimSlice, Charge;
  }

  lemma LaterEnd(l: Limit, m: Meter, s: Lane, now: nat, end: nat)
    requires l.Valid() && Settled(l, m, s, now) && s.end <= end
    ensures Settled(l, m, s.(end := end), now)
  {
    PaidLater(Rate(l, m), l.hz, l.Slice(), s.start, s.start, s.end, now, Disp(s, m), Disp(s, m), end, now);
  }

  lemma RenewSettled(l: Limit, m: Meter, s: Lane, now: nat, now': nat)
    requires l.Valid() && Settled(l, m, s, now) && now <= now'
    ensures Settled(l, m, Renew(l, s, now'), now')
    ensures Renew(l, s, now').end >= now' + l.Slice()
  {
    RenewAccounted(l, m, s, s, now, now');
    if SliceUsed(s, now') {
      SettledBy(l, m, Renew(l, s, now'), now', 0);
    }
  }

  /** With a clean rate every slice of a run is settled, trimmed ones included:
      the rate bound holds from every slice start. */
  lemma {:induction false} RunSettled(l: Limit, m: Meter, s: Lane, now: nat, es: seq<Event>, t: nat)
    requires l.Valid() && RoundsClean(l, m) && Kept(l, m, s, now) && InOrder(now, es, t)
    ensures Kept(l, m, Run(l, s, es), t) && Settled(l, m, Run(l, s, es), t)
    decreases |es|
  {
    hide RoundsClean, IosCap, Step;
    if es == [] {
      PaidLater(Rate(l, m), l.hz, l.Slice(), s.start, s.start, s.end, now, Disp(s, m), Disp(s, m), s.end, t);
    } else {
      StepKept(l, m, s, now, es[0]);
      hide Settled;
      RunSettled(l, m, Step(l, s, es[0]), es[0].now, es[1..], t);
    }
  }

  lemma NewSliceKept(l: Limit, m: Meter, s: Lane, start: nat)
    requires l.Valid()
    ensures Kept(l, m, StartNewSlice(l, s, start), start)
  {
    SettledBy(l, m, StartNewSlice(l, s, start), start, 0);
  }

  // ------------------------------------------------- where the bound from a trim fails

  /** Look at an empty head once per slice from slice `j` up to slice `k`, then,
      one tick into slice `k`, dispatch `size` bytes. */
  function Burst(l: Limit, j: nat, k: nat, size: nat): (es: seq<Event>)
    requires l.Valid() && j <= k
    ensures InOrder(j * l.Slice(), es, k * l.Slice() + 1)
    decreases k - j
  {
    if j == k then [Submit(k * l.Slice() + 1, size)]
    else
      assert (j + 1) * l.Slice() == j * l.Slice() + l.Slice();
      [Probe((j + 1) * l.Slice(), 0)] + Burst(l, j + 1, k, size)
  }

  /** A slice that started at time 0 and lasts to the end of slice `j`. */
  predicate Long(l: Limit, s: Lane, j: nat) {
    s.start == 0 && s.end >= (j + 1) * l.Slice()
  }

  lemma RoundUpExact(q: nat, k: nat)
    requires k > 0
    ensures RoundUp(q * k, k) == q * k
  {
    QuotientIs(q * k + (k - 1), k, q, k - 1);
  }

  /** A look makes a long slice longer and changes nothing else. */
  lemma BurstProbe(l: Limit, s: Lane, j: nat)
    requires l.Valid() && Long(l, s, j)
    ensures var r := Step(l, s, Probe((j + 1) * l.Slice(), 0)); r == s.(end := r.end) && Long(l, r, j + 1)
  {
    var now := (j + 1) * l.Slice();
    assert now + l.Slice() == (j + 2) * l.Slice();
    RoundUpExact(j + 2, l.Slice());
    StepIs(l, s, Probe(now, 0));
  }

  lemma {:induction false} BurstProbes(l: Limit, s: Lane, j: nat, k: nat, size: nat)
    requires l.Valid() && j <= k && Long(l, s, j)
    ensures exists end :: Long(l, s.(end := end), k) &&
              Run(l, s, Burst(l, j, k, size)) == Step(l, s.(end := end), Submit(k * l.Slice() + 1, size))
    decreases k - j
  {
    var es := Burst(l, j, k, size);
    if j == k {
      assert es[1..] == [] && s == s.(end := s.end);
      assert Run(l, s, es) == Step(l, s.(end := s.end), es[0]);
    } else {
      BurstProbe(l, s, j);
      assert es[1..] == Burst(l, j + 1, k, size);
      BurstProbes(l, Step(l, s, es[0]), j + 1, k, size);
    }
  }

  /** One tick into slice `k` both limits allow a bio. */
  ghost predicate Allows(l: Limit, s: Lane, k: nat, size: nat)
    requires l.Valid()
  {
    && s.bytesDisp + size <= Quota(l.bps, (k + 1) * l.Slice(), l.hz)
    && s.ioDisp + 1 <= Quota(l.iops, (k + 1) * l.Slice(), l.hz) && s.ioDisp < UINT_MAX
  }

  /** The lane after such a bio: the slice is trimmed by `k` whole slices if they
      are worth a byte or a bio. */
  ghost predicate AfterBurst(l: Limit, s: Lane, r: Lane, k: nat, size: nat)
    requires l.Valid()
  {
    var ticks := k * l.Slice();
    if Quota(l.bps, ticks, l.hz) == 0 && Quota(l.iops, ticks, l.hz) == 0 then
      r.bytesDisp == s.bytesDisp + size && r.ioDisp == s.ioDisp + 1 && Long(l, r, k + 1)
    else
      && r.start == ticks
      && forall m :: Disp(r, m) == MonusNat(Disp(s, m) + Cost(m, size), Quota(Rate(l, m), ticks, l.hz))
  }

  /** The dispatch at the end of a burst. */
  lemma BurstSubmit(l: Limit, s: Lane, k: nat, size: nat)
    requires l.Valid() && l.Slice() > 1 && k > 0 && Long(l, s, k)
    requires Allows(l, s, k, size)
    ensures AfterBurst(l, s, Step(l, s, Submit(k * l.Slice() + 1, size)), k, size)
  {
    hide Quota, Renew, Wait, TrimSlice, Limit.Slice;
    BurstFree(l, s, k, size);
    StepIs(l, s, Submit(k * l.Slice() + 1, size));
    BurstTrim(l, Charge(Renew(l, s, k * l.Slice() + 1), size), k);
  }

  /** The end of a burst is in the slice, and both limits allow it. */
  lemma BurstFree(l: Limit, s: Lane, k: nat, size: nat)
    requires l.Valid() && l.Slice() > 1 && k > 0 && Long(l, s, k)
    requires Allows(l, s, k, size)
    ensures var now := k * l.Slice() + 1;
            var s1 := Renew(l, s, now);
            && s1 == s.(end := s1.end) && Long(l, s1, k) && s1.start <= now && Wait(l, s1, now, size) == 0
  {
    BurstTimes(l, s, k);
    hide Quota, RoundUp, ElapsedRounded, WholeSlices;
    var now := k * l.Slice() + 1;
    var s1 := Renew(l, s, now);
    assert s1 == s.(end := s1.end) && s1.end >= s.end;
    BurstTimes(l, s1, k);
  }

  lemma BurstTrim(l: Limit, s: Lane, k: nat)
    requires l.Valid() && l.Slice() > 1 && k > 0 && Long(l, s, k)
    ensures var r, ticks := TrimSlice(l, s, k * l.Slice() + 1), k * l.Slice();
            if Quota(l.bps, ticks, l.hz) == 0 && Quota(l.iops, ticks, l.hz) == 0 then
              r == s.(end := r.end) && Long(l, r, k + 1)
            else
              && r.start == ticks
              && forall m :: Disp(r, m) == MonusNat(Disp(s, m), Quota(Rate(l, m), ticks, l.hz))
  {
    BurstTimes(l, s, k);
    hide Quota, RoundUp, ElapsedRounded, WholeSlices;
  }

  /** The times at the end of a burst, one tick into slice `k`. */
  lemma BurstTimes(l: Limit, s: Lane, k: nat)
    requires l.Valid() && l.Slice() > 1 && k > 0 && s.start == 0
    ensures var slice, now := l.Slice(), k * l.Slice() + 1;
            && (k + 1) * slice == k * slice + slice && (k + 2) * slice == k * slice + 2 * slice && k * slice >= slice
            && RoundUp(now + slice, slice) == (k + 2) * slice
            && WholeSlices(l, s, now) == k * slice && ElapsedRounded(l, s, now) == (k + 1) * slice
  {
    var slice, ticks := l.Slice(), k * l.Slice();
    var now := ticks + 1;
    assert (k + 1) * slice == ticks + slice && (k + 2) * slice == ticks + 2 * slice;
    MulMono(slice, 1, k);
    QuotientIs(now + slice + (slice - 1), slice, k + 2, 0);
    QuotientIs(now, slice, k, 1);
    RoundedVersusWhole(l, s, now);
    hide ElapsedRounded;
  }

  /** A burst, if both limits allow its dispatch. */
  lemma {:induction false} BurstRun(l: Limit, s: Lane, j: nat, k: nat, size: nat)
    requires l.Valid() && l.Slice() > 1 && j <= k && k > 0 && Long(l, s, j)
    requires Allows(l, s, k, size)
    ensures AfterBurst(l, s, Run(l, s, Burst(l, j, k, size)), k, size)
  {
    hide Run, Step, Burst, Quota, Long, Limit.Slice;
    BurstProbes(l, s, j, k, size);
    var end :| Long(l, s.(end := end), k) &&
      Run(l, s, Burst(l, j, k, size)) == Step(l, s.(end := end), Submit(k * l.Slice() + 1, size));
    BurstSubmit(l, s.(end := end), k, size);
  }

  lemma QuotaIs(rate: nat, ticks: nat, hz: nat, q: nat, m: nat)
    requires m < hz && rate * ticks == q * hz + m
    ensures Quota(rate, ticks, hz) == q
  {
    QuotientIs(rate * ticks, hz, q, m);
  }

  lemma MulSwap(r: int, k: int, s: int)
    ensures r * (k * s) == k * (r * s)
  {
  }

  lemma MulSum(k: int, b: int, hz: int, lost: int)
    ensures k * (b * hz + lost) == (k * b) * hz + k * lost
  {
  }

  /** The quota of `k` slices: their own quotas and what their fractions add up to. */
  lemma QuotaOfSlices(rate: nat, slice: nat, hz: nat, k: nat, n: nat)
    requires hz > 0 && n * hz <= k * Lost(rate, slice, hz) < n * hz + hz
    ensures Quota(rate, k * slice, hz) == k * Quota(rate, slice, hz) + n
  {
    var b, lost := Quota(rate, slice, hz), Lost(rate, slice, hz);
    assert rate * (k * slice) == (k * b) * hz + k * lost by {
      MulSwap(rate, k, slice);
      MulSum(k, b, hz, lost);
    }
    assert (k * b + n) * hz == (k * b) * hz + n * hz;
    QuotaIs(rate, k * slice, hz, k * b + n, k * lost - n * hz);
  }

  /** The slice at whose end the fractions add up to `n` whole units. */
  function JumpSlice(lost: nat, hz: nat, n: nat): (k: nat)
    requires 0 < lost < hz && n > 0
    ensures k * lost < n * hz <= (k + 1) * lost && k + 1 >= n
  {
    var k := (n * hz - 1) / lost;
    assert n * hz - 1 == k * lost + (n * hz - 1) % lost;
    assert (k + 1) * lost == k * lost + lost;
    JumpLate(lost, hz, n, k);
    k
  }

  lemma JumpLate(lost: nat, hz: nat, n: nat, k: nat)
    requires 0 < lost < hz && n * hz <= (k + 1) * lost
    ensures k + 1 >= n
  {
    MulMono(k + 1, lost, hz);
    assert (k + 2) * hz == (k + 1) * hz + hz;
    MulCancel(n, k + 2, hz);
  }

  lemma QuotaJumps(rate: nat, slice: nat, hz: nat, n: nat)
    requires hz > 0 && n > 0 && 0 < Lost(rate, slice, hz)
    ensures var k := JumpSlice(Lost(rate, slice, hz), hz, n);
            && Quota(rate, k * slice, hz) == k * Quota(rate, slice, hz) + n - 1
            && Quota(rate, (k + 1) * slice, hz) == (k + 1) * Quota(rate, slice, hz) + n
  {
    var lost := Lost(rate, slice, hz);
    var k := JumpSlice(lost, hz, n);
    assert (k + 1) * lost == k * lost + lost && (n - 1) * hz == n * hz - hz;
    QuotaOfSlices(rate, slice, hz, k, n - 1);
    QuotaOfSlices(rate, slice, hz, k + 1, n);
  }

  /** One unit more than its quota is too much for a slice that is one tick old. */
  lemma OneTooMany(rate: nat, slice: nat, hz: nat)
    requires hz > 0 && Lost(rate, slice, hz) + rate < hz
    ensures (Quota(rate, slice, hz) + 1) * hz > rate * (1 + slice)
  {
    var b := Quota(rate, slice, hz);
    assert (b + 1) * hz == b * hz + hz;
    assert rate * (1 + slice) == rate + rate * slice;
  }

  /** A run that ends on a slice already over its bound. */
  ghost predicate Overdraws(l: Limit, m: Meter, s: Lane, es: seq<Event>, t: nat)
    requires l.Valid()
  {
    var r := Run(l, StartNewSlice(l, s, 0), es);
    InOrder(0, es, t) && r.start <= t && Disp(r, m) * l.hz > Rate(l, m) * (t - r.start + l.Slice())
  }

  lemma ManySlices(l: Limit, k: nat)
    requires l.Valid() && k >= l.hz
    ensures Quota(l.iops, k * l.Slice(), l.hz) > 0
  {
    MulMono(l.Slice(), l.hz, k);
    MulMono(l.hz, 1, l.Slice());
    MulMono(k * l.Slice(), 1, l.iops);
    assert l.iops * (k * l.Slice()) >= l.hz;
  }

  lemma NewSliceLong(l: Limit, s: Lane)
    ensures var s0 := StartNewSlice(l, s, 0); Long(l, s0, 0) && s0.bytesDisp == 0 && s0.ioDisp == 0
  {
  }

  /** All the bytes allowed at once, when a byte more has just become due. */
  lemma {:induction false} BytesOverdraw(l: Limit, s: Lane) returns (es: seq<Event>, t: nat)
    requires l.Valid() && !RoundsClean(l, Bytes)
    ensures Overdraws(l, Bytes, s, es, t)
  {
    var slice := l.Slice();
    var k := JumpSlice(Lost(l.bps, slice, l.hz), l.hz, l.hz + 1);
    hide Run, Burst, InOrder, Quota, Lost, JumpSlice, Long, Limit.Slice;
    var size := BytesAtJump(l, k);
    es, t := Burst(l, 0, k, size), k * slice + 1;
    NewSliceLong(l, s);
    BurstRun(l, StartNewSlice(l, s, 0), 0, k, size);
    var r := Run(l, StartNewSlice(l, s, 0), es);
    assert Disp(r, Bytes) == MonusNat(size, Quota(l.bps, k * slice, l.hz));
    OneTooMany(l.bps, slice, l.hz);
  }

  lemma BytesAtJump(l: Limit, k: nat) returns (size: nat)
    requires l.Valid() && 0 < Lost(l.bps, l.Slice(), l.hz)
    requires k == JumpSlice(Lost(l.bps, l.Slice(), l.hz), l.hz, l.hz + 1)
    ensures k > 0 && size == Quota(l.bps, (k + 1) * l.Slice(), l.hz)
    ensures MonusNat(size, Quota(l.bps, k * l.Slice(), l.hz)) == Quota(l.bps, l.Slice(), l.hz) + 1
    ensures Quota(l.iops, k * l.Slice(), l.hz) > 0 && Quota(l.iops, (k + 1) * l.Slice(), l.hz) > 0
  {
    QuotaJumps(l.bps, l.Slice(), l.hz, l.hz + 1);
    ManySlices(l, k);
    ManySlices(l, k + 1);
    hide Quota, Lost, JumpSlice;
    size := Quota(l.bps, (k + 1) * l.Slice(), l.hz);
    assert (k + 1) * Quota(l.bps, l.Slice(), l.hz) == k * Quota(l.bps, l.Slice(), l.hz) + Quota(l.bps, l.Slice(), l.hz);
  }

  /** The first two slices at whose ends a bio more becomes due, when a slice is
      not worth one. */
  lemma IosJumps(l: Limit) returns (k: nat, k2: nat)
    requires l.Valid() && !RoundsClean(l, Ios)
    ensures 0 < k < k2
    ensures Quota(l.iops, k * l.Slice(), l.hz) == 0 && Quota(l.iops, (k + 1) * l.Slice(), l.hz) == 1
    ensures Quota(l.iops, k2 * l.Slice(), l.hz) == 1 && Quota(l.iops, (k2 + 1) * l.Slice(), l.hz) == 2
  {
    SlowIos(l);
    var lost := Lost(l.iops, l.Slice(), l.hz);
    k, k2 := JumpSlice(lost, l.hz, 1), JumpSlice(lost, l.hz, 2);
    QuotaJumps(l.iops, l.Slice(), l.hz, 1);
    QuotaJumps(l.iops, l.Slice(), l.hz, 2);
    JumpsApart(lost, l.hz, k, k2);
  }

  /** A bio as soon as one is allowed; if that is not trimmed, a second one as
      soon as two are, which is trimmed by one. */
  lemma {:induction false} IosOverdraw(l: Limit, s: Lane) returns (es: seq<Event>, t: nat)
    requires l.Valid() && !RoundsClean(l, Ios)
    ensures Overdraws(l, Ios, s, es, t)
  {
    hide Run, Burst, InOrder, Quota, Lost, Long, Limit.Slice, RoundsClean, StartNewSlice, AfterBurst;
    var k, k2 := IosJumps(l);
    SlowIos(l);
    var slice, s0 := l.Slice(), StartNewSlice(l, s, 0);
    es, t := Burst(l, 0, k, 0), k * slice + 1;
    NewSliceLong(l, s);
    BurstRun(l, s0, 0, k, 0);
    FirstBio(l, s0, Run(l, s0, es), k);
    if Quota(l.bps, k * slice, l.hz) == 0 {
      es, t := SecondBio(l, s0, Run(l, s0, es), es, k, k2);
    }
  }

  /** The first bio is left on the slice, which is trimmed if the time is worth
      a byte. */
  lemma FirstBio(l: Limit, s: Lane, r: Lane, k: nat)
    requires l.Valid() && AfterBurst(l, s, r, k, 0) && s.bytesDisp == 0 && s.ioDisp == 0
    requires Quota(l.iops, k * l.Slice(), l.hz) == 0
    ensures r.ioDisp == 1
    ensures if Quota(l.bps, k * l.Slice(), l.hz) == 0 then r.bytesDisp == 0 && Long(l, r, k + 1)
            else r.start == k * l.Slice()
  {
    hide Quota, Long, Limit.Slice;
    assert Quota(l.bps, k * l.Slice(), l.hz) > 0 ==> Disp(r, Ios) == 1;
  }

  /** The run above, when the first bio left the slice untrimmed. */
  lemma {:induction false} SecondBio(l: Limit, s0: Lane, s1: Lane, first: seq<Event>, k: nat, k2: nat)
    returns (es: seq<Event>, t: nat)
    requires l.Valid() && l.Slice() > 1 && s1 == Run(l, s0, first) && InOrder(0, first, k * l.Slice() + 1)
    requires s1.bytesDisp == 0 && s1.ioDisp == 1 && Long(l, s1, k + 1) && k < k2
    requires Quota(l.iops, k2 * l.Slice(), l.hz) == 1 && Quota(l.iops, (k2 + 1) * l.Slice(), l.hz) == 2
    requires l.hz > l.iops * (1 + l.Slice())
    ensures var r := Run(l, s0, es);
            && InOrder(0, es, t) && r.start <= t && r.ioDisp * l.hz > l.iops * (t - r.start + l.Slice())
  {
    hide Run, Burst, InOrder, Quota, Long;
    var slice := l.Slice();
    var second := Burst(l, k + 1, k2, 0);
    es, t := first + second, k2 * slice + 1;
    assert (k + 1) * slice == k * slice + slice;
    hide Limit.Slice;
    InOrderEarlier(k * slice + 1, (k + 1) * slice, second, t);
    InOrderConcat(0, first, k * slice + 1, second, t);
    RunConcat(l, s0, first, second);
    BurstRun(l, s1, k + 1, k2, 0);
    assert Disp(Run(l, s0, es), Ios) == 1;
  }

  lemma InOrderEarlier(now: nat, later: nat, es: seq<Event>, t: nat)
    requires InOrder(later, es, t) && now <= later
    ensures InOrder(now, es, t)
  {
  }

  lemma JumpsApart(lost: nat, hz: nat, k: nat, k2: nat)
    requires 0 < lost < hz && k * lost < hz <= (k + 1) * lost && k2 * lost < 2 * hz <= (k2 + 1) * lost
    ensures 0 < k < k2
  {
    assert (k + 1) * lost == k * lost + lost;
    MulCancel(k + 1, k2 + 1, lost);
  }

  lemma SlowIos(l: Limit)
    requires l.Valid() && !RoundsClean(l, Ios)
    ensures Quota(l.iops, l.Slice(), l.hz) == 0 && 0 < Lost(l.iops, l.Slice(), l.hz)
    ensures Lost(l.iops, l.Slice(), l.hz) + l.iops < l.hz && l.hz > l.iops * (1 + l.Slice()) && l.Slice() > 1
  {
    assert l.iops * (l.Slice() + 1) == l.iops * l.Slice() + l.iops;
    MulMono(l.iops, 1, l.Slice());
    QuotaIs(l.iops, l.Slice(), l.hz, 0, l.iops * l.Slice());
  }

  /** Without a clean limit there is a run from a new slice, whatever the other
      limit is, that ends on a trimmed slice already over its bound. */
  lemma {:induction false} UncleanRateOverdraws(l: Limit, m: Meter, s: Lane) returns (es: seq<Event>, t: nat)
    requires l.Valid() && !RoundsClean(l, m)
    ensures Overdraws(l, m, s, es, t)
  {
    if m.Bytes? {
      es, t := BytesOverdraw(l, s);
    } else {
      es, t := IosOverdraw(l, s);
    }
  }

  /** From the start of every slice of every run the direction keeps within its
      rate and one slice: exactly when the limit rounds clean. */
  lemma {:induction false} CleanExactly(l: Limit, m: Meter, s: Lane)
    requires l.Valid()
    ensures RoundsClean(l, m) <==> forall es, t :: !Overdraws(l, m, s, es, t)
  {
    if RoundsClean(l, m) {
      forall es, t
        ensures !Overdraws(l, m, s, es, t)
      {
        if InOrder(0, es, t) {
          hide RoundsClean, Run, InOrder;
          NewSliceKept(l, m, s, 0);
          RunSettled(l, m, StartNewSlice(l, s, 0), 0, es, t);
        }
      }
    } else {
      var es, t := UncleanRateOverdraws(l, m, s);
    }
  }
}

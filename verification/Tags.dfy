/** The tag allocator (block/blk-tag.c): a bitmap of tags in use, an index from
    tags to requests, and a depth that can be changed while tags are live. */
module Tags {
  import opened Lists

  const BITS_PER_LONG := 64

  /** blk_queue_tag with the requests it serves: `bits` is the tag map, `tag` the
      tag of every request (none is -1), `busy` the list of tagged requests. */
  datatype TagMap = TagMap(realMax: nat, max: nat, bits: seq<bool>, index: seq<Option<nat>>,
                       tag: map<nat, Option<nat>>, busy: seq<nat>)

  // ------------------------------------------------------------------ operations

  /** The bitmap holds whole words. */
  function Words(depth: nat): nat {
    (depth + BITS_PER_LONG - 1) / BITS_PER_LONG * BITS_PER_LONG
  }

  /** How far a request may look: asynchronous requests leave two tags free. */
  function Limit(max: nat, sync: bool): nat {
    if sync || max <= 1 then max else if max - 2 == 0 then 1 else max - 2
  }

  /** find_first_zero_bit below `limit`. */
  function FirstFree(bits: seq<bool>, from: nat, limit: nat): (t: nat)
    requires limit <= |bits|
    ensures from <= limit ==> from <= t <= limit
    decreases limit - from
  {
    if from >= limit then from else if !bits[from] then from else FirstFree(bits, from + 1, limit)
  }

  lemma {:induction false} FirstFreeIs(bits: seq<bool>, from: nat, limit: nat)
    requires from <= limit <= |bits|
    ensures var t := FirstFree(bits, from, limit);
            (forall i :: from <= i < t ==> bits[i]) && (t < limit ==> !bits[t])
    decreases limit - from
  {
    if from < limit && bits[from] {
      FirstFreeIs(bits, from + 1, limit);
    }
  }

  /** Asynchronous requests also wait while too many of them are in flight. */
  predicate Refused(s: TagMap, sync: bool, inFlight: nat) {
    !sync && s.max > 1 && inFlight > Limit(s.max, sync)
  }

  /** blk_queue_start_tag; `None` when there is no tag to be had. */
  function Start(s: TagMap, r: nat, sync: bool, inFlight: nat): Option<TagMap>
    requires s.max <= s.realMax <= |s.bits| && |s.index| == s.realMax
  {
    var t := FirstFree(s.bits, 0, Limit(s.max, sync));
    if Refused(s, sync, inFlight) || t >= Limit(s.max, sync) then None
    else Some(s.(bits := s.bits[t := true], index := s.index[t := Some(r)], tag := s.tag[r := Some(t)],
                 busy := [r] + s.busy))
  }

  /** blk_queue_end_tag. */
  function End(s: TagMap, r: nat): TagMap
    requires r in s.tag && s.tag[r].Some? && |s.index| == s.realMax <= |s.bits|
  {
    var t := s.tag[r].value;
    if t >= s.realMax then s
    else s.(bits := s.bits[t := false], index := s.index[t := None], tag := s.tag[r := None],
            busy := Without(s.busy, r))
  }

  /** The depth init_tag_map settles for. */
  function Adjusted(depth: nat, nrRequests: nat): nat {
    if depth > nrRequests * 2 then nrRequests * 2 else depth
  }

  function Pad<T>(l: seq<T>, n: nat, x: T): seq<T>
    requires |l| <= n
  {
    l + seq(n - |l|, _ => x)
  }

  /** blk_queue_resize_tags: shrinking only lowers the limit; growing copies the
      old map and index into new ones, unless the map is shared. `None` is -EBUSY. */
  function Resize(s: TagMap, depth: nat, nrRequests: nat, shared: bool): Option<TagMap>
    requires depth > s.realMax && !shared ==>
               |s.index| <= Adjusted(depth, nrRequests) && |s.bits| <= Words(Adjusted(depth, nrRequests))
  {
    if depth <= s.realMax then Some(s.(max := depth))
    else if shared then None
    else
      var d := Adjusted(depth, nrRequests);
      Some(s.(realMax := d, max := d, bits := Pad(s.bits, Words(d), false), index := Pad(s.index, d, None)))
  }

  // ------------------------------------------------------------------- invariant

  /** A tag is set exactly when the index names a request, and that request
      carries that tag. */
  ghost predicate Linked(s: TagMap) {
    && (forall t :: 0 <= t < |s.index| && t < |s.bits| ==> (s.bits[t] <==> s.index[t].Some?))
    && (forall t :: 0 <= t < |s.index| && s.index[t].Some? ==>
          s.index[t].value in s.tag && s.tag[s.index[t].value] == Some(t))
    && (forall r :: r in s.tag && s.tag[r].Some? ==> s.tag[r].value < |s.index| && s.index[s.tag[r].value] == Some(r))
  }

  ghost predicate Inv(s: TagMap) {
    && |s.index| == s.realMax && |s.bits| == Words(s.realMax) && s.max <= s.realMax <= |s.bits|
    && (forall t :: s.realMax <= t < |s.bits| ==> !s.bits[t])
    && Linked(s) && Distinct(s.busy) && (forall r :: r in s.busy <==> r in s.tag && s.tag[r].Some?)
  }

  lemma WordsAtLeast(depth: nat)
    ensures depth <= Words(depth) < depth + BITS_PER_LONG
  {
  }

  lemma WordsGrow(a: nat, b: nat)
    requires a <= b
    ensures Words(a) <= Words(b)
  {
  }

  lemma LimitWithin(max: nat, sync: bool)
    ensures Limit(max, sync) <= max
  {
  }

  /** `r` with tag `t`. */
  function Taken(s: TagMap, r: nat, t: nat): TagMap
    requires t < |s.bits| && t < |s.index|
  {
    s.(bits := s.bits[t := true], index := s.index[t := Some(r)], tag := s.tag[r := Some(t)], busy := [r] + s.busy)
  }

  lemma TakenOk(s: TagMap, r: nat, t: nat)
    requires Inv(s) && r in s.tag && s.tag[r].None? && t < s.realMax && !s.bits[t]
    ensures Inv(Taken(s, r, t))
  {
    hide Words;
    var s' := Taken(s, r, t);
    assert Linked(s');
    hide Linked;
    assert forall x :: x in s'.busy <==> x == r || x in s.busy;
  }

  /** The tags a request may have: a synchronous one any below the depth, an
      asynchronous one none of the last two, but always the first. */
  predicate MayUse(max: nat, sync: bool, t: nat) {
    if sync then t < max else t < max && (t == 0 || t + 2 < max)
  }

  /** Too many asynchronous requests are in flight: more than the tags they may use. */
  predicate Flooded(max: nat, sync: bool, inFlight: nat) {
    !sync && max > 1 && inFlight > 1 && inFlight + 2 > max
  }

  lemma LimitIs(max: nat, sync: bool)
    ensures forall t: nat :: t < Limit(max, sync) <==> MayUse(max, sync, t)
  {
  }

  /** Starting a tag takes the lowest one that is free and that the request may
      have, and fails exactly when there is none or too many are in flight. */
  lemma StartOk(s: TagMap, r: nat, sync: bool, inFlight: nat)
    requires Inv(s) && r in s.tag && s.tag[r].None?
    ensures var s' := Start(s, r, sync, inFlight);
            && (s'.None? <==> Flooded(s.max, sync, inFlight)
                              || forall t :: 0 <= t < s.max && MayUse(s.max, sync, t) ==> s.bits[t])
            && (s'.Some? ==> var t := s'.value.tag[r];
                  && Inv(s'.value) && t.Some? && MayUse(s.max, sync, t.value) && !s.bits[t.value]
                  && (forall i :: 0 <= i < t.value ==> s.bits[i]) && s'.value == Taken(s, r, t.value))
  {
    LimitWithin(s.max, sync);
    LimitIs(s.max, sync);
    FirstFreeIs(s.bits, 0, Limit(s.max, sync));
    assert Refused(s, sync, inFlight) <==> Flooded(s.max, sync, inFlight);
    var t := FirstFree(s.bits, 0, Limit(s.max, sync));
    if t < Limit(s.max, sync) {
      TakenOk(s, r, t);
    }
    hide FirstFree, Words, Limit, Linked, MayUse, Refused, Flooded;
  }

  /** Ending a tag frees it, and nothing else changes; the tag is always within
      the map. */
  lemma EndOk(s: TagMap, r: nat)
    requires Inv(s) && r in s.tag && s.tag[r].Some?
    ensures s.tag[r].value < s.realMax && Inv(End(s, r))
    ensures var s', t := End(s, r), s.tag[r].value;
            && !s'.bits[t] && s'.index[t].None? && s'.tag == s.tag[r := None]
            && s' == s.(bits := s'.bits, index := s'.index, tag := s'.tag, busy := s'.busy)
            && (forall i :: 0 <= i < s.realMax && i != t ==> s'.bits[i] == s.bits[i] && s'.index[i] == s.index[i])
  {
    hide Without, Words;
    WithoutMembers(s.busy, r);
    EndLinked(s, r);
    hide Linked;
  }

  lemma EndLinked(s: TagMap, r: nat)
    requires Linked(s) && r in s.tag && s.tag[r].Some? && |s.index| == s.realMax <= |s.bits|
    ensures s.tag[r].value < |s.index| && Linked(End(s, r))
  {
    hide Without;
  }

  /** Resizing keeps every live tag where it is and adds free ones; it fails
      exactly when a shared map would have to grow. */
  lemma ResizeOk(s: TagMap, depth: nat, nrRequests: nat, shared: bool)
    requires Inv(s) && (depth > s.realMax && !shared ==> s.realMax <= Adjusted(depth, nrRequests))
    ensures depth > s.realMax && !shared ==> |s.bits| <= Words(Adjusted(depth, nrRequests))
    ensures var s' := Resize(s, depth, nrRequests, shared);
            && (s'.None? <==> depth > s.realMax && shared)
            && (s'.Some? ==> && Inv(s'.value) && s'.value.tag == s.tag
                             && s'.value.max == (if depth > s.realMax && depth > 2 * nrRequests then 2 * nrRequests
                                                 else depth)
                             && s'.value.realMax == (if depth <= s.realMax then s.realMax else s'.value.max)
                             && (forall t :: 0 <= t < s.realMax ==>
                                   s'.value.index[t] == s.index[t] && s'.value.bits[t] == s.bits[t])
                             && (forall t :: s.realMax <= t < s'.value.realMax ==>
                                   s'.value.index[t].None? && !s'.value.bits[t]))
  {
    if depth > s.realMax && !shared {
      var d := Adjusted(depth, nrRequests);
      WordsGrow(s.realMax, d);
      WordsAtLeast(d);
      hide Words;
    }
  }

  /** When growing, the old index fits into the new one exactly when it is no
      larger than twice the number of requests. */
  lemma GrowFits(s: TagMap, depth: nat, nrRequests: nat)
    requires depth > s.realMax
    ensures s.realMax <= Adjusted(depth, nrRequests) <==> s.realMax <= 2 * nrRequests
  {
  }

  /** Otherwise a live tag can lie beyond the new map. */
  lemma GrowLoses(realMax: nat, depth: nat, nrRequests: nat) returns (s: TagMap)
    requires depth > realMax > 2 * nrRequests
    ensures Inv(s) && s.realMax == realMax && 0 in s.tag && s.tag[0].Some?
    ensures s.tag[0].value >= Adjusted(depth, nrRequests)
  {
    var t := realMax - 1;
    WordsAtLeast(realMax);
    s := TagMap(realMax, realMax, seq(Words(realMax), i => i == t), seq(realMax, i => if i == t then Some(0) else None),
                map[0 := Some(t)], [0]);
    hide Words;
  }

  // ------------------------------------------------------------------------ runs

  datatype Event = StartTag(r: nat, sync: bool, inFlight: nat) | EndTag(r: nat)
                 | ResizeTags(depth: nat, nrRequests: nat, shared: bool)

  ghost predicate Enabled(s: TagMap, e: Event) {
    match e
    case StartTag(r, _, _) => r in s.tag && s.tag[r].None?
    case EndTag(r) => r in s.tag && s.tag[r].Some?
    case ResizeTags(depth, nrRequests, shared) => depth > s.realMax && !shared ==> s.realMax <= 2 * nrRequests
  }

  /** A step; one that fails leaves everything as it is. */
  ghost function Step(s: TagMap, e: Event): TagMap
    requires Inv(s) && Enabled(s, e)
  {
    match e
    case StartTag(r, sync, inFlight) =>
      if Start(s, r, sync, inFlight).Some? then Start(s, r, sync, inFlight).value else s
    case EndTag(r) => End(s, r)
    case ResizeTags(depth, nrRequests, shared) =>
      ResizeOk(s, depth, nrRequests, shared);
      if Resize(s, depth, nrRequests, shared).Some? then Resize(s, depth, nrRequests, shared).value else s
  }

  /** Every step keeps the invariant, and the tag of every request it does not end. */
  lemma StepOk(s: TagMap, e: Event)
    requires Inv(s) && Enabled(s, e)
    ensures Inv(Step(s, e)) && Step(s, e).tag.Keys == s.tag.Keys
    ensures forall r :: r in s.tag && s.tag[r].Some? && e != EndTag(r) ==> Step(s, e).tag[r] == s.tag[r]
  {
    match e {
      case StartTag(r, sync, inFlight) => StartOk(s, r, sync, inFlight);
      case EndTag(r) => EndOk(s, r);
      case ResizeTags(depth, nrRequests, shared) => ResizeOk(s, depth, nrRequests, shared);
    }
    hide Inv, FirstFree, Limit, Without, Words, Pad;
  }

  ghost predicate Legal(s: TagMap, es: seq<Event>)
    requires Inv(s)
    decreases |es|
  {
    es == [] || (Enabled(s, es[0]) && (StepOk(s, es[0]); Legal(Step(s, es[0]), es[1..])))
  }

  ghost function Run(s: TagMap, es: seq<Event>): TagMap
    requires Inv(s) && Legal(s, es)
    decreases |es|
  {
    if es == [] then s else StepOk(s, es[0]); Run(Step(s, es[0]), es[1..])
  }

  /** Over any run of starts, ends and resizes a live tag stays with its request,
      in range and found by the index, until it is ended. */
  lemma {:induction false} LiveTagKept(s: TagMap, es: seq<Event>, r: nat)
    requires Inv(s) && Legal(s, es) && r in s.tag && s.tag[r].Some? && EndTag(r) !in es
    ensures var s', t := Run(s, es), s.tag[r].value;
            Inv(s') && r in s'.tag && s'.tag[r] == Some(t) && t < |s'.index| && s'.index[t] == Some(r)
            && t < |s'.bits| && s'.bits[t]
    decreases |es|
  {
    if es == [] {
      Found(s, r);
    } else {
      StepOk(s, es[0]);
      LiveTagKept(Step(s, es[0]), es[1..], r);
    }
    hide Inv, Step, Enabled;
  }

  lemma Found(s: TagMap, r: nat)
    requires Inv(s) && r in s.tag && s.tag[r].Some?
    ensures var t := s.tag[r].value; t < |s.index| && s.index[t] == Some(r) && t < |s.bits| && s.bits[t]
  {
    hide Words;
  }

  /** No two requests share a tag. */
  lemma TagsDistinct(s: TagMap, r: nat, q: nat)
    requires Inv(s) && r in s.tag && q in s.tag && s.tag[r].Some? && s.tag[r] == s.tag[q]
    ensures r == q
  {
    hide Words;
    Found(s, r);
    Found(s, q);
  }

  // ------------------------------------------------- tags kept for synchronous I/O

  /** The requests of `a` hold tags, and none of the last two. */
  ghost predicate Low(s: TagMap, a: set<nat>) {
    forall r :: r in a ==> r in s.tag && s.tag[r].Some? && s.tag[r].value + 2 < s.max
  }

  /** The asynchronous requests that hold a tag after a step. */
  ghost function Asyncs(s: TagMap, e: Event, a: set<nat>): set<nat>
    requires Inv(s) && Enabled(s, e)
  {
    match e
    case StartTag(r, sync, _) => if Step(s, e).tag == s.tag then a else if sync then a - {r} else a + {r}
    case EndTag(r) => a - {r}
    case ResizeTags(_, _, _) => a
  }

  lemma StepLow(s: TagMap, e: Event, a: set<nat>)
    requires Inv(s) && Enabled(s, e) && Low(s, a) && s.max >= 3 && !e.ResizeTags?
    ensures Low(Step(s, e), Asyncs(s, e, a)) && Step(s, e).max == s.max
  {
    match e {
      case StartTag(r, sync, inFlight) =>
        StartOk(s, r, sync, inFlight);
        hide Inv, Start;
      case EndTag(r) =>
        EndOk(s, r);
        hide Inv, End;
    }
  }

  ghost function AsyncsOf(s: TagMap, es: seq<Event>, a: set<nat>): set<nat>
    requires Inv(s) && Legal(s, es)
    decreases |es|
  {
    if es == [] then a else StepOk(s, es[0]); AsyncsOf(Step(s, es[0]), es[1..], Asyncs(s, es[0], a))
  }

  lemma {:induction false} RunLow(s: TagMap, es: seq<Event>, a: set<nat>)
    requires Inv(s) && Legal(s, es) && Low(s, a) && s.max >= 3 && forall i :: 0 <= i < |es| ==> !es[i].ResizeTags?
    ensures Inv(Run(s, es)) && Low(Run(s, es), AsyncsOf(s, es, a)) && Run(s, es).max == s.max
    decreases |es|
  {
    hide Inv, Step, Enabled, Low, Asyncs;
    if es != [] {
      StepOk(s, es[0]);
      StepLow(s, es[0], a);
      RunLow(Step(s, es[0]), es[1..], Asyncs(s, es[0], a));
    }
  }

  /** At most one request besides those of `a` holds a tag. */
  ghost predicate OneSync(s: TagMap, a: set<nat>) {
    forall x, y ::
      x in s.tag && y in s.tag && s.tag[x].Some? && s.tag[y].Some? && x !in a && y !in a ==> x == y
  }

  lemma HolderOf(s: TagMap, a: set<nat>, t: nat)
    requires Inv(s) && Low(s, a) && t < s.max <= t + 2
    ensures s.bits[t] ==> && s.index[t].Some? && s.index[t].value in s.tag && s.index[t].value !in a
                          && s.tag[s.index[t].value] == Some(t)
  {
    hide Words;
  }

  lemma LastTwo(s: TagMap, a: set<nat>)
    requires Inv(s) && Low(s, a) && s.max >= 3 && OneSync(s, a)
    ensures !s.bits[s.max - 2] || !s.bits[s.max - 1]
  {
    HolderOf(s, a, s.max - 2);
    HolderOf(s, a, s.max - 1);
    hide Words, Linked, Low;
  }

  /** Asynchronous requests cannot shut out synchronous ones: after any run on a
      map of at least three tags, a synchronous request gets a tag unless two
      synchronous requests hold one. */
  lemma {:induction false} SyncStarts(s: TagMap, es: seq<Event>, r: nat, inFlight: nat)
    requires Inv(s) && Legal(s, es) && s.max >= 3 && forall i :: 0 <= i < |es| ==> !es[i].ResizeTags?
    requires forall x :: x in s.tag ==> s.tag[x].None?
    requires var s', a := Run(s, es), AsyncsOf(s, es, {});
             r in s'.tag && s'.tag[r].None? && OneSync(s', a)
    ensures Inv(Run(s, es)) && Enabled(Run(s, es), StartTag(r, true, inFlight))
    ensures Step(Run(s, es), StartTag(r, true, inFlight)).tag[r].Some?
  {
    RunLow(s, es, {});
    var s', a := Run(s, es), AsyncsOf(s, es, {});
    hide Run, AsyncsOf, Legal;
    LastTwo(s', a);
    StartOk(s', r, true, inFlight);
    hide Inv, Start, Low;
    assert MayUse(s'.max, true, s'.max - 2) && MayUse(s'.max, true, s'.max - 1);
  }

  // ------------------------------------------------------------------- the code

  /** A fresh map has no tag in use. */
  lemma EmptyOk(depth: nat, tag: map<nat, Option<nat>>)
    requires forall r :: r in tag ==> tag[r].None?
    ensures Inv(TagMap(depth, depth, seq(Words(depth), _ => false), seq(depth, _ => None), tag, []))
  {
    WordsAtLeast(depth);
    hide Words;
  }

  class QueueTags {
    var realMax: nat
    var max: nat
    var bits: array<bool>
    var index: array<Option<nat>>
    var tag: map<nat, Option<nat>>
    var busy: seq<nat>

    ghost function State(): TagMap
      reads this, bits, index
    {
      TagMap(realMax, max, bits[..], index[..], tag, busy)
    }

    ghost predicate Valid()
      reads this, bits, index
    {
      Inv(State())
    }

    /** blk_queue_init_tags with init_tag_map, for requests that carry no tag. */
    constructor (depth: nat, nrRequests: nat, tag: map<nat, Option<nat>>)
      requires forall r :: r in tag ==> tag[r].None?
      ensures Valid() && fresh(bits) && fresh(index)
      ensures realMax == max == Adjusted(depth, nrRequests) && this.tag == tag
    {
      var d := Adjusted(depth, nrRequests);
      EmptyOk(d, tag);
      realMax, max, this.tag, busy := d, d, tag, [];
      bits := new bool[Words(d)](_ => false);
      index := new Option<nat>[d](_ => None);
      new;
      assert bits[..] == seq(Words(d), _ => false) && index[..] == seq(d, _ => None);
    }

    /** find_first_zero_bit. */
    method FindFirstZero(limit: nat) returns (t: nat)
      requires limit <= bits.Length
      ensures t == FirstFree(bits[..], 0, limit)
    {
      t := 0;
      while t < limit && bits[t]
        invariant t <= limit && FirstFree(bits[..], t, limit) == FirstFree(bits[..], 0, limit)
      {
        t := t + 1;
      }
    }

    /** blk_queue_start_tag; the BUG on a tagged request is the precondition. */
    method StartRequest(r: nat, sync: bool, inFlight: nat) returns (failed: bool)
      requires Valid() && r in tag && tag[r].None?
      modifies this, bits, index
      ensures bits == old(bits) && index == old(index) && Valid()
      ensures old(max) <= old(realMax) <= |old(bits[..])| && |old(index[..])| == old(realMax)
      ensures match Start(old(State()), r, sync, inFlight)
              case None => failed && State() == old(State())
              case Some(s) => !failed && State() == s
    {
      hide Inv, FirstFree, Words;
      ghost var was := State();
      StartOk(was, r, sync, inFlight);
      LimitWithin(max, sync);
      Bounds(was);
      var limit := max;
      if !sync && limit > 1 {
        limit := limit - 2;
        if limit == 0 {
          limit := 1;
        }
        if inFlight > limit {
          return true;
        }
      }
      assert limit == Limit(max, sync);
      var t := FindFirstZero(limit);
      if t >= limit {
        return true;
      }
      bits[t] := true;
      tag := tag[r := Some(t)];
      index[t] := Some(r);
      busy := [r] + busy;
      assert bits[..] == was.bits[t := true] && index[..] == was.index[t := Some(r)];
      return false;
    }

    /** blk_queue_end_tag. The messages about tags that are out of range, missing
        or not busy are never printed. */
    method EndRequest(r: nat)
      requires Valid() && r in tag && tag[r].Some?
      modifies this, bits, index
      ensures bits == old(bits) && index == old(index) && Valid()
      ensures |old(index[..])| == old(realMax) <= |old(bits[..])| && State() == End(old(State()), r)
    {
      ghost var was := State();
      EndOk(was, r);
      Found(was, r);
      Bounds(was);
      hide Inv, Words, Without;
      var t := tag[r].value;
      assert t < realMax && index[t] == Some(r) && bits[t];
      busy := Without(busy, r);
      tag := tag[r := None];
      index[t] := None;
      bits[t] := false;
      assert bits[..] == was.bits[t := false] && index[..] == was.index[t := None];
    }

    /** New, longer maps with the old contents. */
    method Grow(d: nat)
      requires index.Length <= d && bits.Length <= Words(d)
      modifies this
      ensures State() == old(State()).(realMax := d, max := d, bits := Pad(old(bits[..]), Words(d), false),
                                       index := Pad(old(index[..]), d, None))
      ensures fresh(bits) && fresh(index)
    {
      hide Words;
      ghost var was := State();
      var newIndex := new Option<nat>[d](_ => None);
      var newBits := new bool[Words(d)](_ => false);
      forall t | 0 <= t < index.Length {
        newIndex[t] := index[t];
      }
      forall t | 0 <= t < bits.Length {
        newBits[t] := bits[t];
      }
      assert newIndex[..] == Pad(was.index, d, None);
      assert newBits[..] == Pad(was.bits, Words(d), false);
      realMax, max, index, bits := d, d, newIndex, newBits;
    }

    /** blk_queue_resize_tags. */
    method ResizeMap(depth: nat, nrRequests: nat, shared: bool) returns (ok: bool)
      requires Valid() && (depth > realMax && !shared ==> realMax <= 2 * nrRequests)
      modifies this
      ensures depth > old(realMax) && !shared ==>
                |old(index[..])| <= Adjusted(depth, nrRequests) && |old(bits[..])| <= Words(Adjusted(depth, nrRequests))
      ensures Valid() && match Resize(old(State()), depth, nrRequests, shared)
              case None => !ok && State() == old(State())
              case Some(s) => ok && State() == s
    {
      hide Inv, Words, Pad;
      ghost var was := State();
      if depth > realMax {
        GrowFits(was, depth, nrRequests);
      }
      ResizeOk(was, depth, nrRequests, shared);
      Bounds(was);
      if depth <= realMax {
        max := depth;
        return true;
      }
      if shared {
        return false;
      }
      Grow(Adjusted(depth, nrRequests));
      return true;
    }
  }

  lemma Bounds(s: TagMap)
    requires Inv(s)
    ensures s.max <= s.realMax <= |s.bits| && |s.index| == s.realMax
  {
  }
}

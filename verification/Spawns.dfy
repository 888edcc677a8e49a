/** Removing the users of an algorithm (crypto/algapi.c): the walk of
    crypto_remove_spawns with its explicit stack, and what it leaves behind.

    An algorithm and an instance of a template are the same kind of thing, named
    by a number; so is a spawn, the link by which an instance uses an algorithm.
 */
module Spawns {
  import opened Lists

  type Users = map<nat, seq<nat>>
  type Owners = map<nat, Option<nat>>

  /** cra_users of `a`. */
  function UsersOf(users: Users, a: nat): seq<nat> {
    if a in users then users[a] else []
  }

  /** The alg field of spawn `x`. */
  function OwnerOf(owner: Owners, x: nat): Option<nat> {
    if x in owner then owner[x] else None
  }

  /** The instance of spawn `x`. */
  function InstOf(inst: map<nat, nat>, x: nat): nat {
    if x in inst then inst[x] else 0
  }

  /** One removal: the users of `alg` named by `chosen` go, sparing `nalg`. The
      first three fields are the links it starts from; `rank` and `limit` witness
      that no chain of users comes back. */
  datatype Job = Job(users: Users, owner: Owners, inst: map<nat, nat>,
                     alg: nat, nalg: Option<nat>, chosen: set<nat>, rank: nat -> nat, limit: nat)
  {
    /** The algorithm `x` uses at the start. */
    ghost function Home(x: nat): nat {
      if OwnerOf(owner, x).Some? then OwnerOf(owner, x).value else 0
    }

    ghost function Inst(x: nat): nat {
      InstOf(inst, x)
    }

    ghost predicate Linked(x: nat) {
      OwnerOf(owner, x).Some? && x in UsersOf(users, Home(x))
    }
  }

  ghost predicate UserOk(j: Job, a: nat, x: nat) {
    && OwnerOf(j.owner, x) == Some(a) && x in j.inst && j.Inst(x) in j.users
    && j.rank(a) < j.rank(j.Inst(x)) <= j.limit
  }

  /** The lists and the back pointers agree, and using an algorithm leads away
      from it. */
  ghost predicate Sound(j: Job) {
    && j.alg in j.users
    && (forall a, x :: x in UsersOf(j.users, a) ==> UserOk(j, a, x))
    && (forall a :: Distinct(UsersOf(j.users, a)))
    && (forall x :: OwnerOf(j.owner, x).Some? ==> j.Linked(x))
  }

  lemma SoundStart(j: Job)
    requires Sound(j)
    ensures j.alg in j.users && Distinct(j.users[j.alg]) && UsersOf(j.users, j.alg) == j.users[j.alg]
  {
    assert Distinct(UsersOf(j.users, j.alg));
  }

  lemma IsUser(j: Job, a: nat, x: nat)
    requires Sound(j) && x in UsersOf(j.users, a)
    ensures UserOk(j, a, x) && j.Linked(x) && j.Home(x) == a
  {
  }

  /** A spawn the removal is about: a chosen user of `alg`, or a user of the
      instance of such a spawn, but nothing that uses `nalg`. */
  ghost predicate Dependent(j: Job, x: nat)
    decreases j.rank(j.Home(x))
  {
    && j.Linked(x)
    && if j.Home(x) == j.alg then x in j.chosen
       else Some(j.Home(x)) != j.nalg && exists y :: Parent(j, y, x) && Dependent(j, y)
  }

  /** `y` is a spawn of the instance that `x` uses. */
  ghost predicate Parent(j: Job, y: nat, x: nat) {
    j.Linked(y) && j.Linked(x) && j.Inst(y) == j.Home(x) && j.rank(j.Home(y)) < j.rank(j.Inst(y))
  }

  /** Spawns that reach `nalg`: it is their instance, or a user of theirs does. */
  ghost predicate Kept(j: Job, x: nat)
    decreases j.limit - j.rank(j.Inst(x))
  {
    Some(j.Inst(x)) == j.nalg
    || exists y :: y in UsersOf(j.users, j.Inst(x)) && j.rank(j.Inst(x)) < j.rank(j.Inst(y)) <= j.limit && Kept(j, y)
  }

  /** Every instance is reached by one spawn only. */
  ghost predicate Forest(j: Job) {
    forall x, y :: Dependent(j, x) && Dependent(j, y) && j.Inst(x) == j.Inst(y) ==> x == y
  }

  /** Two spawns of one instance, other than `nalg`, that reach `nalg`. */
  ghost predicate Shared(j: Job, x: nat, y: nat) {
    Dependent(j, x) && Dependent(j, y) && x != y && j.Inst(x) == j.Inst(y) && Some(j.Inst(x)) != j.nalg && Kept(j, x)
  }

  /** No instance on the way to `nalg` is reached twice. */
  ghost predicate Apart(j: Job) {
    forall x, y :: !Shared(j, x, y)
  }

  lemma ForestApart(j: Job)
    requires Forest(j)
    ensures Apart(j)
  {
    hide Dependent, Kept;
  }

  /** Without an algorithm to spare nothing is on the way to it. */
  lemma {:induction false} NothingKept(j: Job, x: nat)
    requires j.nalg.None?
    ensures !Kept(j, x)
    decreases j.limit - j.rank(j.Inst(x))
  {
    if Kept(j, x) {
      var y :| y in UsersOf(j.users, j.Inst(x)) && j.rank(j.Inst(x)) < j.rank(j.Inst(y)) <= j.limit && Kept(j, y);
      NothingKept(j, y);
    }
  }

  lemma UnregisteredApart(j: Job)
    requires j.nalg.None?
    ensures Apart(j)
  {
    forall x, y
      ensures !Shared(j, x, y)
    {
      NothingKept(j, x);
      hide Kept, Dependent;
    }
  }

  lemma {:induction false} DependentBelow(j: Job, x: nat)
    requires Sound(j) && Dependent(j, x)
    ensures j.rank(j.alg) < j.rank(j.Inst(x)) && UserOk(j, j.Home(x), x)
    decreases j.rank(j.Home(x))
  {
    IsUser(j, j.Home(x), x);
    if j.Home(x) != j.alg {
      var y :| Parent(j, y, x) && Dependent(j, y);
      hide Sound, Dependent;
      DependentBelow(j, y);
    }
  }

  lemma ChildDependent(j: Job, x: nat, y: nat)
    requires Sound(j) && Dependent(j, x) && Some(j.Inst(x)) != j.nalg && y in UsersOf(j.users, j.Inst(x))
    ensures Dependent(j, y) && j.Home(y) == j.Inst(x) != j.alg
  {
    IsUser(j, j.Inst(x), y);
    DependentBelow(j, x);
    assert Parent(j, x, y);
  }

  lemma ChildKept(j: Job, x: nat, y: nat)
    requires Sound(j) && y in UsersOf(j.users, j.Inst(x)) && Kept(j, y)
    ensures Kept(j, x)
  {
    IsUser(j, j.Inst(x), y);
  }

  // ------------------------------------------------------------------- the walk

  /** The users of `alg` that are not removed, in their order. */
  function Unchosen(l: seq<nat>, chosen: set<nat>): seq<nat> {
    if l == [] then []
    else Unchosen(l[..|l| - 1], chosen) + if l[|l| - 1] in chosen then [] else [l[|l| - 1]]
  }

  lemma {:induction false} UnchosenOnly(l: seq<nat>, chosen: set<nat>)
    ensures forall x :: x in Unchosen(l, chosen) <==> x in l && x !in chosen
    ensures Distinct(l) ==> Distinct(Unchosen(l, chosen))
  {
    if l != [] {
      UnchosenOnly(l[..|l| - 1], chosen);
      assert l == l[..|l| - 1] + [l[|l| - 1]];
    }
  }

  /** The lists during a walk; the first element of `stack` is its top. */
  datatype Walk = Walk(users: Users, owner: Owners, top: seq<nat>, stack: seq<nat>, secondary: seq<nat>)

  /** The list `x` starts on, as it is now. */
  ghost function HomeList(j: Job, w: Walk, x: nat): seq<nat> {
    if j.Home(x) == j.alg then w.top else UsersOf(w.users, j.Home(x))
  }

  /** Some spawn that has been taken off its list leads to `a`. */
  ghost predicate Touched(j: Job, w: Walk, a: nat) {
    Some(a) != j.nalg && exists x :: (x in w.stack || x in w.secondary) && j.Inst(x) == a
  }

  /** A user of the instance of `x` is done and was kept. */
  ghost predicate Spared(j: Job, secondary: seq<nat>, x: nat) {
    Some(j.Inst(x)) == j.nalg || exists y :: y in UsersOf(j.users, j.Inst(x)) && y in secondary && Kept(j, y)
  }

  ghost predicate ListOk(j: Job, w: Walk, a: nat) {
    && Distinct(UsersOf(w.users, a)) && (forall x :: x in UsersOf(w.users, a) ==> x in UsersOf(j.users, a))
    && (!Touched(j, w, a) ==> UsersOf(w.users, a) == UsersOf(j.users, a))
  }

  ghost predicate ListsOk(j: Job, w: Walk) {
    && w.users.Keys == j.users.Keys && Distinct(w.top)
    && UsersOf(w.users, j.alg) == Unchosen(UsersOf(j.users, j.alg), j.chosen)
    && (forall x :: x in w.top ==> x in UsersOf(j.users, j.alg) && x in j.chosen)
    && (forall a :: a != j.alg ==> ListOk(j, w, a))
    && (forall x :: x in w.secondary && Some(j.Inst(x)) != j.nalg ==> UsersOf(w.users, j.Inst(x)) == [])
  }

  /** Every spawn concerned is in exactly one place. */
  ghost predicate PlacesOk(j: Job, w: Walk) {
    && Distinct(w.stack) && Distinct(w.secondary)
    && (forall x :: x in w.stack ==> Dependent(j, x) && x !in w.secondary)
    && (forall x :: x in w.secondary ==> Dependent(j, x))
    && (forall x :: Dependent(j, x) ==> (x in HomeList(j, w, x) <==> x !in w.stack && x !in w.secondary))
  }

  /** Each spawn on the stack uses the instance of the one below it. */
  ghost predicate ChainOk(j: Job, stack: seq<nat>) {
    forall i :: 0 <= i < |stack| ==> LinkOk(j, stack, i)
  }

  ghost predicate LinkOk(j: Job, stack: seq<nat>, i: nat)
    requires i < |stack|
  {
    if i + 1 == |stack| then j.Home(stack[i]) == j.alg
    else j.Home(stack[i]) == j.Inst(stack[i + 1]) && Some(j.Inst(stack[i + 1])) != j.nalg
  }

  /** The alg field of spawn `x` is set. */
  predicate Stays(owner: Owners, x: nat) {
    OwnerOf(owner, x).Some?
  }

  ghost predicate Visited(w: Walk, x: nat) {
    x in w.stack || x in w.secondary
  }

  /** What the alg field of `x` says: nothing has changed for a spawn that is still
      waiting; one that was taken has its field only if it reaches `nalg`, and if
      no instance on the way there is shared, then as soon as it is found to. */
  ghost predicate OwnerOk(j: Job, w: Walk, x: nat) {
    if Visited(w, x) then
      && (Stays(w.owner, x) ==> OwnerOf(w.owner, x) == OwnerOf(j.owner, x) && Kept(j, x))
      && (Some(j.Inst(x)) == j.nalg ==> Stays(w.owner, x))
      && (Apart(j) && (if x in w.secondary then Kept(j, x) else Spared(j, w.secondary, x)) ==> Stays(w.owner, x))
    else OwnerOf(w.owner, x) == OwnerOf(j.owner, x)
  }

  ghost predicate OwnersOk(j: Job, w: Walk) {
    w.owner.Keys == j.owner.Keys && forall x :: OwnerOk(j, w, x)
  }

  /** Of two spawns taken for one instance, other than `nalg`, at most one has its
      alg field. */
  ghost predicate LoneOk(j: Job, w: Walk) {
    forall x, y :: Visited(w, x) && Visited(w, y) && x != y && j.Inst(x) == j.Inst(y) && Some(j.Inst(x)) != j.nalg ==>
      !(Stays(w.owner, x) && Stays(w.owner, y))
  }

  /** The users of a finished spawn's instance were finished before it. */
  ghost predicate DoneOk(j: Job, secondary: seq<nat>) {
    forall i :: 0 <= i < |secondary| && Some(j.Inst(secondary[i])) != j.nalg ==> UsersDone(j, secondary, i)
  }

  ghost predicate UsersDone(j: Job, secondary: seq<nat>, i: nat)
    requires i < |secondary|
  {
    forall z :: z in UsersOf(j.users, j.Inst(secondary[i])) ==> z in secondary[i + 1..]
  }

  ghost predicate WalkOk(j: Job, w: Walk) {
    && ListsOk(j, w) && PlacesOk(j, w) && ChainOk(j, w.stack) && OwnersOk(j, w)
    && LoneOk(j, w) && DoneOk(j, w.secondary)
  }

  /** The list the walk takes from next. */
  function Current(w: Walk, inst: map<nat, nat>): seq<nat> {
    if w.stack == [] then w.top else UsersOf(w.users, InstOf(inst, w.stack[0]))
  }

  /** The first spawn of the current list goes on the stack, and is marked for
      removal unless it leads to `nalg`. */
  function Push(w: Walk, inst: map<nat, nat>, nalg: Option<nat>): Walk
    requires Current(w, inst) != []
  {
    var l := Current(w, inst);
    var w1 := if w.stack == [] then w.(top := l[1..]) else w.(users := w.users[InstOf(inst, w.stack[0]) := l[1..]]);
    w1.(stack := [l[0]] + w.stack,
        owner := if Some(InstOf(inst, l[0])) == nalg then w.owner else w.owner[l[0] := None])
  }

  /** crypto_more_spawns: the top of the stack is done; if it was kept, so is the
      spawn below it. */
  function Pop(w: Walk, inst: map<nat, nat>, alg: nat): Walk
    requires w.stack != []
  {
    var s := w.stack[0];
    var restore := |w.stack| > 1 && OwnerOf(w.owner, s).Some? && OwnerOf(w.owner, w.stack[1]).None?;
    w.(stack := w.stack[1..], secondary := [s] + w.secondary,
       owner := if restore then w.owner[w.stack[1] := Some(if |w.stack| == 2 then alg else InstOf(inst, w.stack[2]))]
                else w.owner)
  }

  /** The walk may take a spawn: the top of the stack, if any, does not lead to `nalg`. */
  ghost predicate Descends(j: Job, w: Walk) {
    w.stack != [] ==> Some(j.Inst(w.stack[0])) != j.nalg
  }

  /** What the walk takes next. */
  ghost predicate Takes(j: Job, w: Walk, x: nat) {
    && Current(w, j.inst) != [] && x == Current(w, j.inst)[0]
    && Dependent(j, x) && x !in w.stack && x !in w.secondary && x in j.owner && j.Inst(x) in j.users
    && j.Home(x) == (if w.stack == [] then j.alg else j.Inst(w.stack[0]))
    && (w.stack != [] ==> j.Inst(w.stack[0]) != j.alg) && HomeList(j, w, x) == Current(w, j.inst)
    && Distinct(Current(w, j.inst))
  }

  lemma Taken(j: Job, w: Walk)
    requires Sound(j) && WalkOk(j, w) && Descends(j, w) && Current(w, j.inst) != []
    ensures Takes(j, w, Current(w, j.inst)[0])
  {
    var l := Current(w, j.inst);
    var x := l[0];
    hide Sound, Kept, ChainOk, OwnersOk, LoneOk, DoneOk, Dependent;
    if w.stack == [] {
      assert x in w.top;
      IsUser(j, j.alg, x);
      TopDependent(j, x);
    } else {
      DependentBelow(j, w.stack[0]);
      var a := j.Inst(w.stack[0]);
      assert a != j.alg && ListOk(j, w, a);
      assert x in UsersOf(j.users, a);
      ChildDependent(j, w.stack[0], x);
    }
    DependentBelow(j, x);
    assert x in HomeList(j, w, x);
  }

  lemma TopDependent(j: Job, x: nat)
    requires j.Linked(x) && j.Home(x) == j.alg && x in j.chosen
    ensures Dependent(j, x)
  {
  }

  lemma PushChain(j: Job, w: Walk, x: nat)
    requires ChainOk(j, w.stack) && Descends(j, w) && Takes(j, w, x)
    ensures ChainOk(j, Push(w, j.inst, j.nalg).stack)
  {
    var stack := Push(w, j.inst, j.nalg).stack;
    forall i | 0 <= i < |stack|
      ensures LinkOk(j, stack, i)
    {
      if i > 0 {
        assert LinkOk(j, w.stack, i - 1);
      }
    }
  }

  lemma PushPlaces(j: Job, w: Walk, x: nat)
    requires PlacesOk(j, w) && Takes(j, w, x)
    ensures PlacesOk(j, Push(w, j.inst, j.nalg))
  {
    var l, w' := Current(w, j.inst), Push(w, j.inst, j.nalg);
    assert forall y :: y in l <==> y == x || y in l[1..];
    assert x !in l[1..];
    assert forall y :: y in w'.stack <==> y == x || y in w.stack;
    hide Dependent;
    forall y | Dependent(j, y)
      ensures y in HomeList(j, w', y) <==> y in HomeList(j, w, y) && y != x
    {
    }
  }

  lemma PushList(j: Job, w: Walk, x: nat, a: nat)
    requires ListOk(j, w, a) && Takes(j, w, x) && Descends(j, w)
    ensures ListOk(j, Push(w, j.inst, j.nalg), a)
  {
    var l, w' := Current(w, j.inst), Push(w, j.inst, j.nalg);
    assert forall y :: y in w.stack ==> y in w'.stack;
    assert forall y :: y in l[1..] ==> y in l;
    assert Touched(j, w, a) ==> Touched(j, w', a);
    if w.stack != [] {
      assert w.stack[0] in w'.stack;
    }
    hide Dependent;
  }

  lemma PushLists(j: Job, w: Walk, x: nat)
    requires ListsOk(j, w) && Takes(j, w, x) && Descends(j, w)
    requires forall y :: y in w.secondary && w.stack != [] ==> j.Inst(y) != j.Inst(w.stack[0])
    ensures ListsOk(j, Push(w, j.inst, j.nalg))
  {
    hide Dependent, ListOk, Unchosen;
    forall a | a != j.alg
      ensures ListOk(j, Push(w, j.inst, j.nalg), a)
    {
      PushList(j, w, x, a);
    }
    assert forall y :: y in Current(w, j.inst)[1..] ==> y in Current(w, j.inst);
  }

  /** If no instance on the way to `nalg` is shared, no user of a spawn still
      waiting is done and reaches it. */
  lemma NoChildDone(j: Job, w: Walk, x: nat)
    requires Sound(j) && Apart(j) && ListsOk(j, w) && PlacesOk(j, w) && Takes(j, w, x)
    requires Some(j.Inst(x)) != j.nalg
    ensures !Spared(j, w.secondary, x)
  {
    DependentBelow(j, x);
    assert ListOk(j, w, j.Inst(x));
    forall z | z in UsersOf(j.users, j.Inst(x)) && Kept(j, z)
      ensures z !in w.secondary
    {
      ChildKept(j, x, z);
      ChildDependent(j, x, z);
      hide Dependent, Sound, Kept;
      NotTouched(j, w, x);
      assert z in HomeList(j, w, z);
    }
  }

  lemma NotTouched(j: Job, w: Walk, x: nat)
    requires Apart(j) && PlacesOk(j, w) && Dependent(j, x) && Kept(j, x) && x !in w.stack && x !in w.secondary
    ensures !Touched(j, w, j.Inst(x))
  {
    hide Dependent, Kept;
    forall y | y in w.stack || y in w.secondary
      ensures Some(j.Inst(x)) == j.nalg || j.Inst(y) != j.Inst(x)
    {
      assert !Shared(j, x, y);
    }
  }

  lemma PushOwners(j: Job, w: Walk, x: nat)
    requires OwnersOk(j, w) && Takes(j, w, x)
    requires Apart(j) && Some(j.Inst(x)) != j.nalg ==> !Spared(j, w.secondary, x)
    ensures OwnersOk(j, Push(w, j.inst, j.nalg))
  {
    var w' := Push(w, j.inst, j.nalg);
    assert forall y :: y in w'.stack <==> y == x || y in w.stack;
    hide Dependent, Spared, Apart;
    forall y
      ensures OwnerOk(j, w', y)
    {
      assert OwnerOk(j, w, y);
      hide Kept;
    }
  }

  lemma PushLone(j: Job, w: Walk, x: nat)
    requires LoneOk(j, w) && Takes(j, w, x)
    ensures LoneOk(j, Push(w, j.inst, j.nalg))
  {
    var w' := Push(w, j.inst, j.nalg);
    assert forall y :: y in w'.stack <==> y == x || y in w.stack;
    hide Dependent;
  }

  lemma PushOk(j: Job, w: Walk)
    requires Sound(j) && WalkOk(j, w) && Descends(j, w) && Current(w, j.inst) != []
    ensures WalkOk(j, Push(w, j.inst, j.nalg))
  {
    hide Sound, Dependent, Kept, Apart, Spared;
    Taken(j, w);
    var x := Current(w, j.inst)[0];
    StackAlone(j, w);
    PushChain(j, w, x);
    PushPlaces(j, w, x);
    PushLists(j, w, x);
    if Apart(j) && Some(j.Inst(x)) != j.nalg {
      NoChildDone(j, w, x);
    }
    PushOwners(j, w, x);
    PushLone(j, w, x);
  }

  /** The instance whose users are being taken belongs to no finished spawn. */
  lemma StackAlone(j: Job, w: Walk)
    requires ListsOk(j, w) && Descends(j, w) && Current(w, j.inst) != []
    ensures forall y :: y in w.secondary && w.stack != [] ==> j.Inst(y) != j.Inst(w.stack[0])
  {
    hide ListOk, Unchosen;
  }

  // ----------------------------------------------------------------------- done

  /** The top of the stack is done. */
  ghost predicate Finished(j: Job, w: Walk) {
    w.stack != [] && (Some(j.Inst(w.stack[0])) == j.nalg || UsersOf(w.users, j.Inst(w.stack[0])) == [])
  }

  /** From the bottom of the stack to its top the instances go up in rank. */
  lemma {:induction false} StackRanks(j: Job, w: Walk, i: nat, k: nat)
    requires Sound(j) && PlacesOk(j, w) && ChainOk(j, w.stack) && i < k < |w.stack|
    ensures j.rank(j.Inst(w.stack[k])) < j.rank(j.Inst(w.stack[i]))
    decreases k - i
  {
    assert w.stack[i] in w.stack;
    DependentBelow(j, w.stack[i]);
    assert LinkOk(j, w.stack, i);
    if i + 1 < k {
      StackRanks(j, w, i + 1, k);
    }
  }

  /** So no two spawns on it have one instance. */
  lemma StackDiffers(j: Job, w: Walk, x: nat, y: nat)
    requires Sound(j) && PlacesOk(j, w) && ChainOk(j, w.stack) && x in w.stack && y in w.stack && x != y
    ensures j.Inst(x) != j.Inst(y)
  {
    hide Sound, Dependent;
    var i :| 0 <= i < |w.stack| && w.stack[i] == x;
    var k :| 0 <= k < |w.stack| && w.stack[k] == y;
    if i < k {
      StackRanks(j, w, i, k);
    } else {
      StackRanks(j, w, k, i);
    }
  }

  /** All users of a finished spawn's instance are done. */
  lemma FinishedUsers(j: Job, w: Walk)
    requires Sound(j) && WalkOk(j, w) && Finished(j, w) && Some(j.Inst(w.stack[0])) != j.nalg
    ensures forall z :: z in UsersOf(j.users, j.Inst(w.stack[0])) ==> z in w.secondary
  {
    var s := w.stack[0];
    assert s in w.stack;
    forall z | z in UsersOf(j.users, j.Inst(s))
      ensures z in w.secondary
    {
      ChildDependent(j, s, z);
      NotOnStack(j, w, z);
    }
  }

  /** So what its alg field says is final. */
  lemma FinishedKept(j: Job, w: Walk)
    requires Sound(j) && WalkOk(j, w) && Finished(j, w)
    ensures Spared(j, w.secondary, w.stack[0]) <==> Kept(j, w.stack[0])
  {
    var s := w.stack[0];
    if Some(j.Inst(s)) != j.nalg {
      FinishedUsers(j, w);
      hide Dependent;
      if Kept(j, s) {
        var y :| y in UsersOf(j.users, j.Inst(s)) && Kept(j, y);
      }
      if Spared(j, w.secondary, s) {
        var y :| y in UsersOf(j.users, j.Inst(s)) && y in w.secondary && Kept(j, y);
        ChildKept(j, s, y);
      }
    }
  }

  /** A user of the top spawn's instance would be above it. */
  lemma NotOnStack(j: Job, w: Walk, y: nat)
    requires Sound(j) && PlacesOk(j, w) && ChainOk(j, w.stack) && w.stack != []
    requires Dependent(j, y) && j.Home(y) == j.Inst(w.stack[0]) != j.alg
    ensures y !in w.stack
  {
    hide Dependent, Sound;
    forall i | 0 <= i < |w.stack|
      ensures w.stack[i] != y
    {
      assert LinkOk(j, w.stack, i);
      if i + 1 < |w.stack| {
        StackRanks(j, w, 0, i + 1);
      }
    }
  }

  lemma PopChain(j: Job, w: Walk)
    requires ChainOk(j, w.stack) && w.stack != []
    ensures ChainOk(j, w.stack[1..])
  {
    var stack := w.stack[1..];
    forall i | 0 <= i < |stack|
      ensures LinkOk(j, stack, i)
    {
      assert LinkOk(j, w.stack, i + 1);
    }
  }

  lemma PopPlaces(j: Job, w: Walk)
    requires PlacesOk(j, w) && w.stack != []
    ensures PlacesOk(j, Pop(w, j.inst, j.alg))
  {
    var w' := Pop(w, j.inst, j.alg);
    assert forall x :: x in w.stack <==> x == w.stack[0] || x in w'.stack;
    assert w.stack[0] !in w'.stack;
    assert forall x :: x in w'.secondary <==> x == w.stack[0] || x in w.secondary;
    hide Dependent;
    assert Distinct(w'.secondary);
    assert forall x :: HomeList(j, w', x) == HomeList(j, w, x);
  }

  lemma PopLists(j: Job, w: Walk)
    requires ListsOk(j, w) && Finished(j, w)
    ensures ListsOk(j, Pop(w, j.inst, j.alg))
  {
    var w' := Pop(w, j.inst, j.alg);
    assert forall x :: x in w.stack <==> x == w.stack[0] || x in w'.stack;
    assert forall x :: x in w'.secondary <==> x == w.stack[0] || x in w.secondary;
    forall a | a != j.alg
      ensures ListOk(j, w', a)
    {
      assert ListOk(j, w, a);
      assert Touched(j, w, a) ==> Touched(j, w', a);
    }
  }

  /** Moving the finished spawn to the done list changes only what the spawn
      below it may expect. */
  lemma SparedMore(j: Job, secondary: seq<nat>, s: nat, x: nat)
    requires Sound(j)
    ensures Spared(j, [s] + secondary, x) <==>
            Spared(j, secondary, x) || (s in UsersOf(j.users, j.Inst(x)) && Kept(j, s))
  {
    hide Sound, Kept;
    assert forall y :: y in [s] + secondary <==> y == s || y in secondary;
  }

  lemma PopOwner(j: Job, w: Walk, x: nat)
    requires Sound(j) && WalkOk(j, w) && w.stack != []
    requires Spared(j, w.secondary, w.stack[0]) <==> Kept(j, w.stack[0])
    ensures OwnerOk(j, Pop(w, j.inst, j.alg), x)
  {
    hide Sound, Dependent, Kept, Spared, Apart, ListsOk, LoneOk, DoneOk;
    var s, w' := w.stack[0], Pop(w, j.inst, j.alg);
    assert s in w.stack && s !in w.secondary;
    assert forall y :: y in w.stack <==> y == s || y in w'.stack;
    assert s !in w'.stack;
    assert forall y :: y in w'.secondary <==> y == s || y in w.secondary;
    assert OwnerOk(j, w, x) && OwnerOk(j, w, s);
    SparedMore(j, w.secondary, s, x);
    if x in w'.stack {
      BelowFinished(j, w, x);
      if x == w.stack[1] && Kept(j, s) {
        ChildKept(j, x, s);
      }
    }
  }

  /** Only the spawn right below has the finished one among its users; it would
      be restored to the algorithm it started with. */
  lemma BelowFinished(j: Job, w: Walk, x: nat)
    requires Sound(j) && WalkOk(j, w) && w.stack != [] && x in w.stack[1..]
    ensures OwnerOf(j.owner, x).Some? && x !in w.secondary && x in w.owner
    ensures w.stack[0] in UsersOf(j.users, j.Inst(x)) <==> x == w.stack[1]
    ensures OwnerOf(j.owner, w.stack[1]) == Some(if |w.stack| == 2 then j.alg else j.Inst(w.stack[2]))
    ensures Some(j.Inst(w.stack[1])) != j.nalg
  {
    var s, n := w.stack[0], w.stack[1];
    assert s in w.stack && n in w.stack && x in w.stack;
    DependentBelow(j, s);
    DependentBelow(j, n);
    DependentBelow(j, x);
    assert LinkOk(j, w.stack, 0) && LinkOk(j, w.stack, 1);
    if s in UsersOf(j.users, j.Inst(x)) {
      IsUser(j, j.Inst(x), s);
      if x != n {
        StackDiffers(j, w, x, n);
      }
    }
    DependentLinked(j, s);
    hide Dependent, Sound, Apart, LoneOk, DoneOk, ListsOk;
  }

  lemma DependentLinked(j: Job, x: nat)
    requires Dependent(j, x)
    ensures j.Linked(x)
  {
  }

  /** A restored spawn is the only one of its instance with an alg field: the
      users of an instance are done when a spawn of it is, and the finished spawn
      was not. */
  lemma PopLone(j: Job, w: Walk)
    requires Sound(j) && WalkOk(j, w) && w.stack != []
    ensures LoneOk(j, Pop(w, j.inst, j.alg))
  {
    hide Sound, Dependent, Kept, Spared, Apart, ListsOk, OwnersOk;
    var s, w' := w.stack[0], Pop(w, j.inst, j.alg);
    assert forall y :: y in w.stack <==> y == s || y in w'.stack;
    assert forall y :: y in w'.secondary <==> y == s || y in w.secondary;
    if |w.stack| > 1 {
      var n := w.stack[1];
      assert n == w.stack[1..][0];
      BelowFinished(j, w, n);
      forall y | Visited(w, y) && y != n
        ensures j.Inst(y) != j.Inst(n)
      {
        OnlyBelow(j, w, n, y);
      }
    }
  }

  lemma OnlyBelow(j: Job, w: Walk, n: nat, y: nat)
    requires Sound(j) && WalkOk(j, w) && |w.stack| > 1 && n == w.stack[1] && Visited(w, y) && y != n
    requires w.stack[0] in UsersOf(j.users, j.Inst(n)) && Some(j.Inst(n)) != j.nalg
    ensures j.Inst(y) != j.Inst(n)
  {
    hide Sound, Dependent, ListsOk, OwnersOk, LoneOk, DoneOk;
    assert n in w.stack && w.stack[0] in w.stack;
    if y in w.stack {
      StackDiffers(j, w, y, n);
    } else {
      var i :| 0 <= i < |w.secondary| && w.secondary[i] == y;
      DoneBefore(j, w.secondary, i, w.stack[0]);
    }
  }

  lemma DoneBefore(j: Job, secondary: seq<nat>, i: nat, z: nat)
    requires DoneOk(j, secondary) && i < |secondary|
    ensures Some(j.Inst(secondary[i])) != j.nalg && z in UsersOf(j.users, j.Inst(secondary[i])) ==>
              z in secondary[i + 1..] && z in secondary
  {
    if Some(j.Inst(secondary[i])) != j.nalg {
      assert UsersDone(j, secondary, i);
    }
  }

  lemma DoneFirst(j: Job, s: nat, secondary: seq<nat>)
    requires forall z :: z in UsersOf(j.users, j.Inst(s)) ==> z in secondary
    ensures UsersDone(j, [s] + secondary, 0)
  {
    assert ([s] + secondary)[1..] == secondary;
  }

  lemma DoneNext(j: Job, s: nat, secondary: seq<nat>, i: nat)
    requires i < |secondary| && UsersDone(j, secondary, i)
    ensures UsersDone(j, [s] + secondary, i + 1)
  {
    assert ([s] + secondary)[i + 2..] == secondary[i + 1..];
  }

  lemma PopDone(j: Job, w: Walk)
    requires DoneOk(j, w.secondary) && w.stack != []
    requires Some(j.Inst(w.stack[0])) != j.nalg ==>
               forall z :: z in UsersOf(j.users, j.Inst(w.stack[0])) ==> z in w.secondary
    ensures DoneOk(j, Pop(w, j.inst, j.alg).secondary)
  {
    hide UsersDone, InstOf, UsersOf;
    var l := [w.stack[0]] + w.secondary;
    forall i | 0 <= i < |l| && Some(j.Inst(l[i])) != j.nalg
      ensures UsersDone(j, l, i)
    {
      if i == 0 {
        DoneFirst(j, w.stack[0], w.secondary);
      } else {
        DoneNext(j, w.stack[0], w.secondary, i - 1);
      }
    }
  }

  lemma PopOk(j: Job, w: Walk)
    requires Sound(j) && WalkOk(j, w) && Finished(j, w)
    ensures WalkOk(j, Pop(w, j.inst, j.alg))
  {
    hide Sound, Dependent, Kept, Spared, LoneOk, DoneOk, OwnerOk;
    FinishedKept(j, w);
    PopChain(j, w);
    PopPlaces(j, w);
    PopLists(j, w);
    PopKeys(j, w);
    PopLone(j, w);
    if Some(j.Inst(w.stack[0])) != j.nalg {
      FinishedUsers(j, w);
    }
    PopDone(j, w);
    forall x
      ensures OwnerOk(j, Pop(w, j.inst, j.alg), x)
    {
      PopOwner(j, w, x);
    }
  }

  lemma PopKeys(j: Job, w: Walk)
    requires Sound(j) && WalkOk(j, w) && w.stack != []
    ensures Pop(w, j.inst, j.alg).owner.Keys == j.owner.Keys
  {
    if |w.stack| > 1 {
      assert w.stack[1] == w.stack[1..][0];
      BelowFinished(j, w, w.stack[1]);
    }
  }

  // ------------------------------------------------------------------- settling

  /** When the stack and the top list are empty every dependent spawn is done. */
  lemma {:induction false} AllDone(j: Job, w: Walk, x: nat)
    requires Sound(j) && WalkOk(j, w) && w.stack == [] && w.top == [] && Dependent(j, x)
    ensures x in w.secondary
    decreases j.rank(j.Home(x))
  {
    if j.Home(x) != j.alg {
      var y :| Parent(j, y, x) && Dependent(j, y);
      hide Dependent, Sound;
      AllDone(j, w, y);
    }
  }

  /** The kept spawns among `done` that use `a`, the last first. */
  ghost function KeptUsers(j: Job, own: Owners, done: seq<nat>, a: nat): seq<nat> {
    if done == [] then []
    else
      var x := done[|done| - 1];
      (if Stays(own, x) && j.Home(x) == a then [x] else []) + KeptUsers(j, own, done[..|done| - 1], a)
  }

  lemma {:induction false} KeptUsersOnly(j: Job, own: Owners, done: seq<nat>, a: nat)
    ensures forall x :: x in KeptUsers(j, own, done, a) <==> x in done && Stays(own, x) && j.Home(x) == a
  {
    if done != [] {
      KeptUsersOnly(j, own, done[..|done| - 1], a);
      assert done == done[..|done| - 1] + [done[|done| - 1]];
    }
    hide Stays;
  }

  /** What crypto_remove_spawn changes: instances marked dead, still on their
      template's list, and handed to the caller for destruction. */
  datatype Reg = Reg(dead: set<nat>, hashed: set<nat>, list: seq<nat>)

  /** crypto_remove_spawn for instance `i`; `live` are the instances whose
      template can still be held. */
  function Kill(r: Reg, live: set<nat>, i: nat): Reg {
    if i in r.dead then r
    else if i !in r.hashed || i !in live then r.(dead := r.dead + {i})
    else Reg(r.dead + {i}, r.hashed - {i}, [i] + r.list)
  }

  /** The instances of the spawns in `done` that were not kept. */
  ghost function Killed(j: Job, own: Owners, done: seq<nat>): set<nat> {
    set x | x in done && !Stays(own, x) :: j.Inst(x)
  }

  ghost predicate RegOk(j: Job, own: Owners, r0: Reg, live: set<nat>, done: seq<nat>, r: Reg) {
    && r.dead == r0.dead + Killed(j, own, done)
    && r.hashed == r0.hashed - ((Killed(j, own, done) - r0.dead) * live)
    && (forall i :: i in r.list <==>
          i in r0.list || (i in Killed(j, own, done) && i !in r0.dead && i in r0.hashed && i in live))
  }

  lemma KillOk(j: Job, own: Owners, r0: Reg, live: set<nat>, done: seq<nat>, r: Reg, x: nat)
    requires RegOk(j, own, r0, live, done, r)
    ensures Stays(own, x) ==> RegOk(j, own, r0, live, done + [x], r)
    ensures !Stays(own, x) ==> RegOk(j, own, r0, live, done + [x], Kill(r, live, j.Inst(x)))
  {
    hide Stays, Killed;
    KilledSnoc(j, own, done, x);
    if !Stays(own, x) {
      KilledMore(j, own, r0, live, done, r, x);
    }
  }

  lemma KilledSnoc(j: Job, own: Owners, done: seq<nat>, x: nat)
    ensures Killed(j, own, done + [x]) == Killed(j, own, done) + if Stays(own, x) then {} else {j.Inst(x)}
  {
    hide Stays;
    assert forall y :: y in done + [x] <==> y in done || y == x;
  }

  lemma KilledMore(j: Job, own: Owners, r0: Reg, live: set<nat>, done: seq<nat>, r: Reg, x: nat)
    requires RegOk(j, own, r0, live, done, r)
    requires Killed(j, own, done + [x]) == Killed(j, own, done) + {j.Inst(x)}
    ensures RegOk(j, own, r0, live, done + [x], Kill(r, live, j.Inst(x)))
  {
    hide Killed, InstOf;
    var i, k, k' := j.Inst(x), Killed(j, own, done), Killed(j, own, done + [x]);
    var r' := Kill(r, live, i);
    if i in r.dead {
      assert (k' - r0.dead) * live == (k - r0.dead) * live || i !in r0.dead;
    }
    assert r'.hashed == r0.hashed - ((k' - r0.dead) * live);
    assert r'.dead == r0.dead + k';
  }

  // ---------------------------------------------------------------- the outcome

  /** What is asked for: exactly the dependent spawns that do not lead to `nalg`
      lose their alg fields. */
  ghost predicate OutcomeOwner(j: Job, owner: Owners) {
    forall x :: OwnerOf(owner, x) == if Dependent(j, x) && !Kept(j, x) then None else OwnerOf(j.owner, x)
  }

  /** What holds in any case: no other spawn loses its alg field, none that does
      not lead to `nalg` keeps it, those right at `nalg` do, and of several spawns
      of any other instance at most one. */
  ghost predicate Sparing(j: Job, owner: Owners) {
    && (forall x :: OwnerSpares(j, owner, x))
    && (forall x, y :: Twins(j, x, y) ==> !(Stays(owner, x) && Stays(owner, y)))
  }

  ghost predicate OwnerSpares(j: Job, owner: Owners, x: nat) {
    if Dependent(j, x) then
      && (Stays(owner, x) ==> OwnerOf(owner, x) == OwnerOf(j.owner, x) && Kept(j, x))
      && (Some(j.Inst(x)) == j.nalg ==> Stays(owner, x))
    else OwnerOf(owner, x) == OwnerOf(j.owner, x)
  }

  /** Two dependent spawns of one instance other than `nalg`. */
  ghost predicate Twins(j: Job, x: nat, y: nat) {
    Dependent(j, x) && Dependent(j, y) && x != y && j.Inst(x) == j.Inst(y) && Some(j.Inst(x)) != j.nalg
  }

  /** The lists and instances, given the alg fields: exactly the dependent spawns
      without one are gone, and their instances are dead; all others are where
      they were. */
  ghost predicate OutcomeUsers(j: Job, own: Owners, users: Users) {
    && (forall a, x :: x in UsersOf(users, a) <==> x in UsersOf(j.users, a) && (Dependent(j, x) ==> Stays(own, x)))
    && (forall a :: a != j.alg && Unreached(j, a) ==> UsersOf(users, a) == UsersOf(j.users, a))
    && TopOk(j, own, users)
  }

  /** No dependent spawn leads to `a`, or `a` is the algorithm to spare. */
  ghost predicate Unreached(j: Job, a: nat) {
    forall y :: Dependent(j, y) ==> j.Inst(y) != a || Some(a) == j.nalg
  }

  /** The users of `alg` that were not chosen keep their order, behind any kept ones. */
  ghost predicate TopOk(j: Job, own: Owners, users: Users) {
    exists kept :: UsersOf(users, j.alg) == kept + Unchosen(UsersOf(j.users, j.alg), j.chosen)
                   && forall x :: x in kept ==> Dependent(j, x) && Stays(own, x)
  }

  /** Instance `i` belongs to a dependent spawn that is not kept. */
  ghost predicate Doomed(j: Job, own: Owners, i: nat) {
    exists x :: Dependent(j, x) && !Stays(own, x) && j.Inst(x) == i
  }

  ghost predicate OutcomeReg(j: Job, own: Owners, r0: Reg, live: set<nat>, r: Reg) {
    forall i ::
      var moved := Doomed(j, own, i) && i !in r0.dead && i in r0.hashed && i in live;
      && (i in r.dead <==> i in r0.dead || Doomed(j, own, i)) && (i in r.list <==> i in r0.list || moved)
      && (i in r.hashed <==> i in r0.hashed && !moved)
  }

  ghost predicate SettledUsers(j: Job, own: Owners, base: Users, done: seq<nat>, users: Users) {
    users.Keys == base.Keys && forall a :: UsersOf(users, a) == KeptUsers(j, own, done, a) + UsersOf(base, a)
  }

  lemma KeptSnoc(j: Job, own: Owners, done: seq<nat>, x: nat, a: nat)
    ensures KeptUsers(j, own, done + [x], a)
            == (if Stays(own, x) && j.Home(x) == a then [x] else []) + KeptUsers(j, own, done, a)
  {
    hide Stays;
    assert (done + [x])[..|done|] == done;
  }

  lemma SettleAt(j: Job, own: Owners, base: Users, done: seq<nat>, users: Users, x: nat, users': Users, a: nat)
    requires UsersOf(users, a) == KeptUsers(j, own, done, a) + UsersOf(base, a) && j.Home(x) in users
    requires users' == if Stays(own, x) then users[j.Home(x) := [x] + users[j.Home(x)]] else users
    ensures UsersOf(users', a) == KeptUsers(j, own, done + [x], a) + UsersOf(base, a)
  {
    KeptSnoc(j, own, done, x, a);
    hide Stays, KeptUsers;
    var k, b := KeptUsers(j, own, done, a), UsersOf(base, a);
    assert [x] + (k + b) == ([x] + k) + b;
    assert [] + k == k;
  }

  lemma SettleOk(j: Job, own: Owners, base: Users, done: seq<nat>, users: Users, x: nat)
    requires SettledUsers(j, own, base, done, users) && j.Home(x) in users
    ensures if Stays(own, x) then SettledUsers(j, own, base, done + [x], users[j.Home(x) := [x] + users[j.Home(x)]])
            else SettledUsers(j, own, base, done + [x], users)
  {
    var users' := if Stays(own, x) then users[j.Home(x) := [x] + users[j.Home(x)]] else users;
    hide Stays, KeptUsers;
    var home := j.Home(x);
    hide UsersOf;
    forall a
      ensures UsersOf(users', a) == KeptUsers(j, own, done + [x], a) + UsersOf(base, a)
    {
      SettleAt(j, own, base, done, users, x, users', a);
    }
  }

  /** The walk is over: nothing waits any more. */
  ghost predicate Over(j: Job, w: Walk) {
    && WalkOk(j, w) && w.stack == [] && w.top == []
    && forall x :: Dependent(j, x) ==> x in w.secondary
  }

  lemma OutcomeMember(j: Job, w: Walk, users: Users, a: nat, x: nat)
    requires Sound(j) && Over(j, w) && SettledUsers(j, w.owner, w.users, w.secondary, users)
    ensures x in UsersOf(users, a) <==> x in UsersOf(j.users, a) && (Dependent(j, x) ==> Stays(w.owner, x))
  {
    KeptUsersOnly(j, w.owner, w.secondary, a);
    UnchosenOnly(UsersOf(j.users, j.alg), j.chosen);
    if x in UsersOf(j.users, a) {
      IsUser(j, a, x);
      if a == j.alg {
        ChosenDependent(j, x);
      } else if !Dependent(j, x) {
        StillThere(j, w, a, x);
      }
    }
    if Dependent(j, x) {
      DependentLinked(j, x);
    }
    hide Sound, Dependent, Stays, KeptUsers, Unchosen, OwnersOk;
    assert a != j.alg ==> ListOk(j, w, a);
    assert UsersOf(users, a) == KeptUsers(j, w.owner, w.secondary, a) + UsersOf(w.users, a);
  }

  lemma ChosenDependent(j: Job, x: nat)
    requires j.Linked(x) && j.Home(x) == j.alg
    ensures Dependent(j, x) <==> x in j.chosen
  {
  }

  /** A list holding a spawn that is not concerned has not been touched. */
  lemma StillThere(j: Job, w: Walk, a: nat, x: nat)
    requires Sound(j) && PlacesOk(j, w) && w.stack == [] && x in UsersOf(j.users, a) && !Dependent(j, x)
    ensures !Touched(j, w, a)
  {
    if Touched(j, w, a) {
      var y :| y in w.secondary && j.Inst(y) == a;
      ChildDependent(j, y, x);
      assert false;
    }
  }

  /** A list no dependent spawn leads to is exactly as it was. */
  lemma OutcomeUntouched(j: Job, w: Walk, users: Users, a: nat)
    requires Sound(j) && Over(j, w) && SettledUsers(j, w.owner, w.users, w.secondary, users) && a != j.alg
    requires Unreached(j, a)
    ensures UsersOf(users, a) == UsersOf(j.users, a)
  {
    KeptUsersOnly(j, w.owner, w.secondary, a);
    var k := KeptUsers(j, w.owner, w.secondary, a);
    forall x | x in w.secondary
      ensures j.Home(x) != a
    {
      NotUsing(j, a, x);
    }
    hide Dependent, Sound, KeptUsers, Stays, OwnersOk;
    if k != [] {
      HasFirst(k);
    }
    assert ListOk(j, w, a);
    assert UsersOf(users, a) == k + UsersOf(w.users, a);
  }

  lemma HasFirst(l: seq<nat>)
    requires l != []
    ensures exists x :: x in l
  {
    assert l[0] in l;
  }

  lemma NotUsing(j: Job, a: nat, x: nat)
    requires Dependent(j, x) && a != j.alg
    requires Unreached(j, a)
    ensures j.Home(x) != a
  {
    if j.Home(x) != j.alg {
      var y :| Parent(j, y, x) && Dependent(j, y);
    }
  }

  lemma OutcomeTop(j: Job, w: Walk, users: Users)
    requires Over(j, w) && SettledUsers(j, w.owner, w.users, w.secondary, users)
    ensures TopOk(j, w.owner, users)
  {
    KeptUsersOnly(j, w.owner, w.secondary, j.alg);
    var kept := KeptUsers(j, w.owner, w.secondary, j.alg);
    hide Dependent, Stays, KeptUsers, Unchosen, OwnersOk, ChainOk, ListOk;
    assert UsersOf(users, j.alg) == kept + UsersOf(w.users, j.alg);
  }

  lemma OutcomeIsUsers(j: Job, w: Walk, users: Users)
    requires Sound(j) && Over(j, w) && SettledUsers(j, w.owner, w.users, w.secondary, users)
    ensures OutcomeUsers(j, w.owner, users)
  {
    hide Sound, Over, SettledUsers, Dependent, Stays, TopOk, Unreached;
    forall a, x
      ensures x in UsersOf(users, a) <==> x in UsersOf(j.users, a) && (Dependent(j, x) ==> Stays(w.owner, x))
    {
      OutcomeMember(j, w, users, a, x);
    }
    forall a | a != j.alg && Unreached(j, a)
      ensures UsersOf(users, a) == UsersOf(j.users, a)
    {
      OutcomeUntouched(j, w, users, a);
    }
    OutcomeTop(j, w, users);
  }

  lemma OverSparing(j: Job, w: Walk)
    requires Over(j, w)
    ensures Sparing(j, w.owner)
  {
    hide Dependent, Kept, ListsOk, Apart, Spared;
    forall x
      ensures OwnerSpares(j, w.owner, x)
    {
      assert OwnerOk(j, w, x);
    }
    forall x, y | Twins(j, x, y)
      ensures !(Stays(w.owner, x) && Stays(w.owner, y))
    {
      assert Visited(w, x) && Visited(w, y);
    }
  }

  lemma SameKept(j: Job, x: nat, y: nat)
    requires j.Inst(x) == j.Inst(y) && Kept(j, x)
    ensures Kept(j, y)
  {
  }

  /** The alg fields are as asked for exactly if no instance on the way to `nalg`
      is reached twice. */
  lemma OutcomeIsOwner(j: Job, w: Walk)
    requires Sound(j) && Over(j, w)
    ensures OutcomeOwner(j, w.owner) <==> Apart(j)
  {
    hide Sound, Dependent, Kept, ListsOk, Spared;
    if Apart(j) {
      hide Apart;
      forall x
        ensures OwnerOf(w.owner, x) == if Dependent(j, x) && !Kept(j, x) then None else OwnerOf(j.owner, x)
      {
        assert OwnerOk(j, w, x);
      }
    } else {
      var x, y :| Shared(j, x, y);
      SameKept(j, x, y);
      DependentLinked(j, x);
      DependentLinked(j, y);
      assert Visited(w, x) && Visited(w, y);
      assert !(Stays(w.owner, x) && Stays(w.owner, y));
    }
  }

  /** A shared instance is removed although it leads to `nalg`. */
  lemma SharedDies(j: Job, owner: Owners, r0: Reg, live: set<nat>, r: Reg, x: nat, y: nat)
    requires Sparing(j, owner) && OutcomeReg(j, owner, r0, live, r) && Shared(j, x, y)
    ensures j.Inst(x) in r.dead
  {
    hide Dependent, Kept;
    assert Twins(j, x, y);
    assert Doomed(j, owner, j.Inst(x)) by {
      if !Stays(owner, x) {
        assert !Stays(owner, x) && j.Inst(x) == j.Inst(x);
      } else {
        assert !Stays(owner, y) && j.Inst(y) == j.Inst(x);
      }
    }
  }

  lemma OutcomeIsReg(j: Job, w: Walk, r0: Reg, live: set<nat>, r: Reg)
    requires Over(j, w) && RegOk(j, w.owner, r0, live, w.secondary, r)
    ensures OutcomeReg(j, w.owner, r0, live, r)
  {
    hide Dependent, Stays, ListsOk, OwnersOk;
    forall i
      ensures i in Killed(j, w.owner, w.secondary) <==> Doomed(j, w.owner, i)
    {
      if i in Killed(j, w.owner, w.secondary) {
        var x :| x in w.secondary && !Stays(w.owner, x) && j.Inst(x) == i;
        assert Dependent(j, x);
      }
    }
    hide Doomed, Killed;
  }

  /** The users of the new algorithm stay exactly as they are. */
  lemma SparesNew(j: Job, own: Owners, users: Users, b: nat)
    requires OutcomeUsers(j, own, users) && j.nalg == Some(b) && b != j.alg
    ensures UsersOf(users, b) == UsersOf(j.users, b)
  {
    assert Unreached(j, b);
  }

  // ----------------------------------------------------------------- the diamond

  /** Two instances over algorithm 0, a third over both of them by two spawns of
      its own, and over that the algorithm to spare. */
  const DIAMOND := Job(map[0 := [10, 11], 1 := [12], 2 := [13], 3 := [14], 4 := []],
                       map[10 := Some(0), 11 := Some(0), 12 := Some(1), 13 := Some(2), 14 := Some(3)],
                       map[10 := 1, 11 := 2, 12 := 3, 13 := 3, 14 := 4], 0, Some(4), {10, 11}, DiamondRank, 3)

  function DiamondRank(a: nat): nat {
    if a == 0 then 0 else if a <= 2 then 1 else if a == 3 then 2 else 3
  }

  /** Its links are sound, and the third instance is shared on the way to the
      algorithm to spare: the removal does not do what is asked for. */
  lemma DiamondShared()
    ensures Sound(DIAMOND) && Shared(DIAMOND, 12, 13) && !Apart(DIAMOND)
  {
    var j := DIAMOND;
    DiamondSound();
    assert Dependent(j, 10) && Dependent(j, 11);
    assert Parent(j, 10, 12) && Parent(j, 11, 13);
    assert Dependent(j, 12) && Dependent(j, 13);
    assert Kept(j, 14);
    hide Sound;
    DiamondKept();
  }

  lemma DiamondKept()
    ensures Kept(DIAMOND, 12)
  {
    assert 14 in UsersOf(DIAMOND.users, DIAMOND.Inst(12)) && Kept(DIAMOND, 14);
  }

  lemma DiamondSound()
    ensures Sound(DIAMOND)
  {
    forall a, x | x in UsersOf(DIAMOND.users, a)
      ensures UserOk(DIAMOND, a, x)
    {
      DiamondUser(a, x);
    }
    forall x | OwnerOf(DIAMOND.owner, x).Some?
      ensures DIAMOND.Linked(x)
    {
      DiamondOwner(x);
    }
  }

  lemma DiamondUser(a: nat, x: nat)
    requires x in UsersOf(DIAMOND.users, a)
    ensures UserOk(DIAMOND, a, x)
  {
  }

  lemma DiamondOwner(x: nat)
    requires OwnerOf(DIAMOND.owner, x).Some?
    ensures DIAMOND.Linked(x)
  {
  }

  // ------------------------------------------------------------ the spared path

  /** A chain of users from `alg` to `nalg`. */
  ghost predicate Path(j: Job, path: seq<nat>) {
    && path != [] && j.Home(path[0]) == j.alg && Some(j.Inst(path[|path| - 1])) == j.nalg
    && forall i :: 0 < i < |path| ==> j.Home(path[i]) == j.Inst(path[i - 1])
  }

  /** The chain from `alg` down to a dependent spawn. */
  lemma {:induction false} Upward(j: Job, x: nat) returns (path: seq<nat>)
    requires Sound(j) && Dependent(j, x)
    ensures path != [] && path[|path| - 1] == x && j.Home(path[0]) == j.alg
    ensures forall i :: 0 < i < |path| ==> j.Home(path[i]) == j.Inst(path[i - 1])
    ensures forall i :: 0 <= i < |path| ==> Dependent(j, path[i])
    decreases j.rank(j.Home(x))
  {
    if j.Home(x) == j.alg {
      path := [x];
    } else {
      var y :| Parent(j, y, x) && Dependent(j, y);
      hide Sound, Dependent;
      path := Upward(j, y);
      path := path + [x];
    }
  }

  /** From a kept spawn the instance of some dependent spawn is `nalg`. */
  lemma {:induction false} Downward(j: Job, x: nat) returns (p: nat)
    requires Sound(j) && Dependent(j, x) && Kept(j, x)
    ensures Dependent(j, p) && Some(j.Inst(p)) == j.nalg
    decreases j.limit - j.rank(j.Inst(x))
  {
    if Some(j.Inst(x)) == j.nalg {
      p := x;
    } else {
      var y :| y in UsersOf(j.users, j.Inst(x)) && j.rank(j.Inst(x)) < j.rank(j.Inst(y)) <= j.limit && Kept(j, y);
      ChildDependent(j, x, y);
      hide Sound, Dependent, Kept;
      p := Downward(j, y);
    }
  }

  lemma {:induction false} KeptOnPath(j: Job, path: seq<nat>, x: nat)
    requires Sound(j) && Forest(j) && Path(j, path) && (forall i :: 0 <= i < |path| ==> Dependent(j, path[i]))
    requires Dependent(j, x) && Kept(j, x)
    ensures x in path
    decreases j.limit - j.rank(j.Inst(x))
  {
    if Some(j.Inst(x)) == j.nalg {
      hide Dependent, Sound, Kept;
      assert path[|path| - 1] == x;
    } else {
      var y :| y in UsersOf(j.users, j.Inst(x)) && j.rank(j.Inst(x)) < j.rank(j.Inst(y)) <= j.limit && Kept(j, y);
      ChildDependent(j, x, y);
      hide Sound, Dependent, Kept;
      KeptOnPath(j, path, y);
      var i :| 0 <= i < |path| && path[i] == y;
      assert path[i - 1] == x;
    }
  }

  lemma {:induction false} PathKept(j: Job, path: seq<nat>, i: nat)
    requires Sound(j) && Path(j, path) && (forall k :: 0 <= k < |path| ==> Dependent(j, path[k])) && i < |path|
    ensures Kept(j, path[i])
    decreases |path| - i
  {
    if i + 1 < |path| {
      PathKept(j, path, i + 1);
      DependentLinked(j, path[i + 1]);
      hide Dependent, Sound, Kept;
      ChildKept(j, path[i], path[i + 1]);
    }
  }

  /** The dependent spawns that are kept are exactly those on one chain of users
      from `alg` to `nalg`; there are none if no such chain exists. */
  lemma KeptIsPath(j: Job) returns (path: seq<nat>)
    requires Sound(j) && Forest(j)
    ensures path != [] ==> Path(j, path)
    ensures forall x :: Dependent(j, x) && Kept(j, x) <==> x in path
  {
    if x :| Dependent(j, x) && Kept(j, x) {
      var p := Downward(j, x);
      path := Upward(j, p);
      hide Sound, Dependent, Kept, Forest;
      forall y
        ensures Dependent(j, y) && Kept(j, y) <==> y in path
      {
        if Dependent(j, y) && Kept(j, y) {
          KeptOnPath(j, path, y);
        }
        if y in path {
          var i :| 0 <= i < |path| && path[i] == y;
          PathKept(j, path, i);
        }
      }
    } else {
      path := [];
    }
  }

  // ------------------------------------------------------------------- the code

  /** How many spawns the walk can still take, and how deep it is. */
  ghost function Dependents(j: Job): set<nat> {
    set x | x in j.owner && Dependent(j, x)
  }

  ghost function Left(j: Job, w: Walk): int {
    2 * (|Dependents(j)| - |w.stack| - |w.secondary|) + |w.stack|
  }

  lemma {:induction false} DistinctSize(l: seq<nat>, s: set<nat>)
    requires Distinct(l) && forall x :: x in l ==> x in s
    ensures |l| <= |s|
  {
    if l != [] {
      assert l[0] in l;
      assert forall x :: x in l[1..] ==> x in l;
      DistinctSize(l[1..], s - {l[0]});
    }
  }

  lemma InDependents(j: Job, x: nat)
    requires Dependent(j, x)
    ensures x in Dependents(j)
  {
  }

  lemma LeftNat(j: Job, w: Walk)
    requires PlacesOk(j, w)
    ensures Left(j, w) >= 0
  {
    var l := w.stack + w.secondary;
    hide Dependent;
    forall i, k | 0 <= i < k < |l|
      ensures l[i] != l[k]
    {
      if i < |w.stack| <= k {
        assert w.stack[i] in w.stack && w.secondary[k - |w.stack|] in w.secondary;
      }
    }
    forall x | x in l
      ensures x in Dependents(j)
    {
      InDependents(j, x);
    }
    DistinctSize(l, Dependents(j));
  }

  lemma StartOk(j: Job, top: seq<nat>, users: Users)
    requires Sound(j) && Distinct(top)
    requires forall x :: x in top <==> x in UsersOf(j.users, j.alg) && x in j.chosen
    requires users == j.users[j.alg := Unchosen(j.users[j.alg], j.chosen)]
    ensures WalkOk(j, Walk(users, j.owner, top, [], []))
  {
    var w := Walk(users, j.owner, top, [], []);
    hide Dependent, Unchosen, Kept;
    assert forall a :: a != j.alg ==> UsersOf(users, a) == UsersOf(j.users, a);
    forall x | Dependent(j, x)
      ensures x in HomeList(j, w, x)
    {
      DependentLinked(j, x);
      if j.Home(x) == j.alg {
        ChosenDependent(j, x);
      }
    }
    assert PlacesOk(j, w);
    forall a | a != j.alg
      ensures ListOk(j, w, a)
    {
    }
    assert ListsOk(j, w);
    forall x
      ensures OwnerOk(j, w, x)
    {
    }
  }

  /** A pointer to one of the lists: `top`, or the users of an algorithm. */
  datatype Place = Top | UserList(a: nat)

  ghost function PlaceOf(inst: map<nat, nat>, stack: seq<nat>): Place {
    if stack == [] then Top else UserList(InstOf(inst, stack[0]))
  }

  /** What holds whenever the walk looks for its next spawn. */
  ghost predicate Going(j: Job, w: Walk) {
    Sound(j) && WalkOk(j, w)
  }

  lemma StartGoes(j: Job, w: Walk)
    requires Sound(j) && WalkOk(j, w)
    ensures Going(j, w)
  {
  }

  /** Taking a spawn whose users come next, or which leads to `nalg`. */
  lemma PushGoes(j: Job, w: Walk)
    requires Going(j, w) && Descends(j, w) && Current(w, j.inst) != []
    ensures var w' := Push(w, j.inst, j.nalg);
            && Going(j, w') && Left(j, w') == Left(j, w) - 1 && Left(j, w) > 0
            && Current(w, j.inst)[0] in j.owner && Current(w, j.inst)[0] in j.inst
            && j.Inst(Current(w, j.inst)[0]) != j.alg
            && (w.stack != [] ==> InstOf(j.inst, w.stack[0]) in w.users)
            && (Some(j.Inst(w'.stack[0])) == j.nalg ==> Finished(j, w'))
  {
    PushOk(j, w);
    Taken(j, w);
    DependentBelow(j, Current(w, j.inst)[0]);
    LeftNat(j, Push(w, j.inst, j.nalg));
    hide Sound, Dependent, WalkOk;
  }

  lemma PopGoes(j: Job, w: Walk)
    requires Going(j, w) && Finished(j, w)
    ensures var w' := Pop(w, j.inst, j.alg);
            Going(j, w') && Left(j, w') == Left(j, w) - 1 && Left(j, w) > 0 && Descends(j, w')
  {
    PopOk(j, w);
    LeftNat(j, Pop(w, j.inst, j.alg));
    if |w.stack| > 1 {
      assert LinkOk(j, w.stack, 0);
    }
    hide Sound, Dependent, ListsOk, PlacesOk, OwnersOk, ChainOk, LoneOk, DoneOk;
  }

  lemma GoesOver(j: Job, w: Walk)
    requires Going(j, w) && w.stack == [] && w.top == []
    ensures Over(j, w)
  {
    forall x | Dependent(j, x)
      ensures x in w.secondary
    {
      AllDone(j, w, x);
    }
  }

  /** What the last loop relies on for the spawn it is at. */
  lemma SettleNext(j: Job, w: Walk, users: Users, i: nat)
    requires Sound(j) && Over(j, w) && i < |w.secondary|
    requires SettledUsers(j, w.owner, w.users, w.secondary[..i], users)
    ensures var x := w.secondary[i];
            && OwnerOf(w.owner, x) == (if Stays(w.owner, x) then Some(j.Home(x)) else None) && j.Home(x) in users
            && (!Stays(w.owner, x) ==> UsersOf(users, j.Inst(x)) == [])
  {
    var x := w.secondary[i];
    assert x in w.secondary;
    DependentLinked(j, x);
    assert OwnerOk(j, w, x);
    if !Stays(w.owner, x) {
      NoKeptUsers(j, w, i);
    }
    hide Sound, Dependent, Kept, KeptUsers, Apart, Spared, LoneOk, DoneOk;
  }

  /** The users of a removed instance come later on the list, so none is back yet. */
  lemma NoKeptUsers(j: Job, w: Walk, i: nat)
    requires Sound(j) && Over(j, w) && i < |w.secondary| && !Stays(w.owner, w.secondary[i])
    ensures KeptUsers(j, w.owner, w.secondary[..i], j.Inst(w.secondary[i])) == []
    ensures UsersOf(w.users, j.Inst(w.secondary[i])) == []
  {
    var x := w.secondary[i];
    assert x in w.secondary && OwnerOk(j, w, x);
    assert Some(j.Inst(x)) != j.nalg;
    var l := KeptUsers(j, w.owner, w.secondary[..i], j.Inst(x));
    KeptUsersOnly(j, w.owner, w.secondary[..i], j.Inst(x));
    forall y | y in w.secondary[..i]
      ensures j.Home(y) != j.Inst(x)
    {
      UserLater(j, w, i, y);
    }
    hide Sound, Dependent, Kept, KeptUsers, Apart, Spared;
    if l != [] {
      HasFirst(l);
    }
  }

  lemma UserLater(j: Job, w: Walk, i: nat, y: nat)
    requires PlacesOk(j, w) && DoneOk(j, w.secondary) && i < |w.secondary| && y in w.secondary[..i]
    requires Some(j.Inst(w.secondary[i])) != j.nalg
    ensures j.Home(y) != j.Inst(w.secondary[i])
  {
    assert y in w.secondary;
    DependentLinked(j, y);
    hide Dependent, DoneOk;
    DoneBefore(j, w.secondary, i, y);
    OnceOnly(w.secondary, i, y);
  }

  lemma OnceOnly(l: seq<nat>, i: nat, y: nat)
    requires Distinct(l) && i < |l| && y in l[..i]
    ensures y !in l[i + 1..]
  {
    var k :| 0 <= k < i && l[k] == y;
    var r := l[i + 1..];
    forall m | 0 <= m < |r|
      ensures r[m] != y
    {
      assert r[m] == l[i + 1 + m];
    }
  }

  lemma MaskedXor(a: bv32, b: bv32, mask: bv32)
    ensures (a ^ b) & mask == (a & mask) ^ (b & mask)
  {
  }

  lemma XorNone(a: bv32, b: bv32)
    ensures a ^ b == 0 <==> a == b
  {
  }

  lemma NoneIfSame(x: bv32, a: bv32, b: bv32)
    requires x == a ^ b
    ensures x == 0 <==> a == b
  {
    XorNone(a, b);
  }

  lemma NoneMasked(a: bv32, b: bv32, mask: bv32)
    ensures (a ^ b) & mask == 0 <==> a & mask == b & mask
  {
    MaskedXor(a, b, mask);
    NoneIfSame((a ^ b) & mask, a & mask, b & mask);
  }

  /** Two types differ in some bit of a mask. */
  predicate Differ(a: bv32, b: bv32, mask: bv32) {
    (a ^ b) & mask != 0
  }

  /** Two types are the same under a mask. */
  predicate Agree(a: bv32, b: bv32, mask: bv32) {
    a & mask == b & mask
  }

  lemma DifferIs(a: bv32, b: bv32, mask: bv32)
    ensures Differ(a, b, mask) <==> !Agree(a, b, mask)
  {
    NoneMasked(a, b, mask);
  }

  lemma AgreeSelf(a: bv32, mask: bv32)
    ensures Agree(a, a, mask)
  {
  }

  class CryptoAlgs {
    const inst: map<nat, nat>
    const mask: map<nat, bv32>
    const flags: map<nat, bv32>
    const live: set<nat>
    var users: Users
    var owner: Owners
    var reg: Reg

    constructor (users: Users, owner: Owners, inst: map<nat, nat>, mask: map<nat, bv32>, flags: map<nat, bv32>,
                 live: set<nat>, reg: Reg)
      ensures this.users == users && this.owner == owner && this.reg == reg
      ensures this.inst == inst && this.mask == mask && this.flags == flags && this.live == live
    {
      this.users, this.owner, this.inst, this.mask, this.flags := users, owner, inst, mask, flags;
      this.live, this.reg := live, reg;
    }

    function MaskOf(x: nat): bv32 {
      if x in mask then mask[x] else 0
    }

    function FlagsOf(a: nat): bv32 {
      if a in flags then flags[a] else 0
    }

    /** A user of `alg` is to go when the types differ in no bit it cares about. */
    predicate Matches(alg: nat, nalg: Option<nat>, x: nat) {
      !Differ(FlagsOf(alg), FlagsOf(if nalg.Some? then nalg.value else alg), MaskOf(x))
    }

    /** So a user stays exactly if the old and the new type differ under its mask;
        without a new algorithm every user goes. */
    lemma MatchesMasked(alg: nat, nalg: Option<nat>, x: nat)
      ensures Matches(alg, nalg, x) <==>
              nalg.None? || Agree(FlagsOf(alg), FlagsOf(nalg.value), MaskOf(x))
    {
      hide FlagsOf, MaskOf, Differ, Agree;
      AgreeSelf(FlagsOf(alg), MaskOf(x));
      DifferIs(FlagsOf(alg), FlagsOf(if nalg.Some? then nalg.value else alg), MaskOf(x));
    }

    /** crypto_remove_spawn; the BUG_ON is the last assertion. */
    method RemoveSpawn(x: nat)
      requires UsersOf(users, InstOf(inst, x)) == []
      modifies this`reg
      ensures reg == Kill(old(reg), live, InstOf(inst, x))
    {
      var i := InstOf(inst, x);
      if i in reg.dead {
        return;
      }
      reg := reg.(dead := reg.dead + {i});
      if i !in reg.hashed {
        return;
      }
      if i !in live {
        return;
      }
      reg := reg.(list := [i] + reg.list);
      reg := reg.(hashed := reg.hashed - {i});
      assert UsersOf(users, i) == [];
    }

    /** The first loop: matching users of `alg` move to the returned list. */
    method TakeMatching(alg: nat, nalg: Option<nat>, ghost chosen: set<nat>) returns (top: seq<nat>)
      requires alg in users && Distinct(users[alg])
      requires forall x :: x in users[alg] ==> (x in chosen <==> Matches(alg, nalg, x))
      modifies this`users
      ensures users == old(users)[alg := Unchosen(old(users)[alg], chosen)] && Distinct(top)
      ensures forall x :: x in top <==> x in old(users)[alg] && x in chosen
    {
      var all := users[alg];
      var rest := [];
      top := [];
      var i := 0;
      while i < |all|
        invariant i <= |all| && rest == Unchosen(all[..i], chosen) && users == old(users) && Distinct(top)
        invariant forall x :: x in top <==> x in all[..i] && x in chosen
      {
        assert all[..i + 1][..i] == all[..i];
        assert all[i] in all && all[i] !in all[..i];
        if Matches(alg, nalg, all[i]) {
          top := [all[i]] + top;
        } else {
          rest := rest + [all[i]];
        }
        i := i + 1;
      }
      assert all[..i] == all;
      users := users[alg := rest];
    }

    /** crypto_more_spawns: the list to go on with, or none when the stack is empty. */
    method MoreSpawns(alg: nat, stack: seq<nat>, secondary: seq<nat>)
      returns (stack': seq<nat>, secondary': seq<nat>, spawns: Option<Place>)
      modifies this`owner
      ensures stack == [] ==> spawns.None? && stack' == [] && secondary' == secondary && owner == old(owner)
      ensures stack != [] ==>
                && Pop(Walk(users, old(owner), [], stack, secondary), inst, alg)
                   == Walk(users, owner, [], stack', secondary')
                && spawns == Some(PlaceOf(inst, stack'))
    {
      stack', secondary', spawns := stack, secondary, None;
      if stack == [] {
        return;
      }
      var spawn := stack[0];
      if |stack| > 1 {
        var n := stack[1];
        if OwnerOf(owner, spawn).Some? && OwnerOf(owner, n).None? {
          owner := owner[n := Some(if |stack| == 2 then alg else InstOf(inst, stack[2]))];
        }
      }
      stack' := stack[1..];
      secondary' := [spawn] + secondary;
      spawns := Some(if |stack| == 1 then Top else UserList(InstOf(inst, stack[1])));
    }

    /** The inner loop: from the list at `spawns` go down as far as there are
        users, or to the spawn of `nalg`. The BUG_ON is the assertion. */
    method Descend(nalg: Option<nat>, top: seq<nat>, stack: seq<nat>, secondary: seq<nat>, spawns: Place, ghost j: Job)
      returns (top': seq<nat>, stack': seq<nat>)
      requires var w := Walk(users, owner, top, stack, secondary);
               Going(j, w) && Descends(j, w) && spawns == PlaceOf(inst, stack)
      requires j.inst == inst && j.nalg == nalg
      modifies this`users, this`owner
      ensures var w := Walk(users, owner, top', stack', secondary);
              && Going(j, w) && Left(j, w) <= old(Left(j, Walk(users, owner, top, stack, secondary)))
              && (if stack' == [] then top' == [] else Finished(j, w))
    {
      top', stack' := top, stack;
      var cur := spawns;
      ghost var w := Walk(users, owner, top', stack', secondary);
      ghost var left := Left(j, w);
      hide Going, Left, WalkOk;
      while (if cur.Top? then top' else UsersOf(users, cur.a)) != []
        invariant w == Walk(users, owner, top', stack', secondary)
        invariant Going(j, w) && Descends(j, w) && Left(j, w) <= left && cur == PlaceOf(inst, stack')
        decreases Left(j, w)
      {
        PushGoes(j, w);
        ghost var w' := Push(w, inst, nalg);
        var list := if cur.Top? then top' else UsersOf(users, cur.a);
        var spawn := list[0];
        assert InstOf(inst, spawn) != j.alg;
        if cur.Top? {
          top' := list[1..];
        } else {
          users := users[cur.a := list[1..]];
        }
        stack' := [spawn] + stack';
        w := w';
        if Some(InstOf(inst, spawn)) == nalg {
          break;
        }
        owner := owner[spawn := None];
        cur := UserList(InstOf(inst, spawn));
      }
    }

    /** The last loop: kept spawns go back to the list they came from, the
        instances of the others are removed. */
    method Settle(secondary: seq<nat>, ghost j: Job, ghost w: Walk)
      requires Sound(j) && Over(j, w) && j.inst == inst
      requires w.users == users && w.owner == owner && w.secondary == secondary
      modifies this`users, this`reg
      ensures OutcomeUsers(j, owner, users) && OutcomeReg(j, owner, old(reg), live, reg)
    {
      ghost var r0 := reg;
      var i := 0;
      hide Sound, Over, KeptUsers, Killed, OutcomeUsers, OutcomeReg;
      SettleNothing(j, w, r0, live);
      while i < |secondary|
        invariant i <= |secondary| && SettledUsers(j, owner, w.users, secondary[..i], users)
        invariant RegOk(j, owner, r0, live, secondary[..i], reg)
      {
        var spawn := secondary[i];
        SettleNext(j, w, users, i);
        SettleOk(j, owner, w.users, secondary[..i], users, spawn);
        KillOk(j, owner, r0, live, secondary[..i], reg, spawn);
        assert secondary[..i + 1] == secondary[..i] + [spawn];
        hide SettledUsers, RegOk, Kill;
        match OwnerOf(owner, spawn) {
          case Some(a) => users := users[a := [spawn] + users[a]];
          case None => RemoveSpawn(spawn);
        }
        i := i + 1;
      }
      assert secondary[..i] == secondary;
      OutcomeIsUsers(j, w, users);
      OutcomeIsReg(j, w, r0, live, reg);
    }

    /** The outer loop: every spawn concerned ends on the secondary list. */
    method WalkAll(alg: nat, nalg: Option<nat>, matching: seq<nat>, ghost j: Job) returns (secondary: seq<nat>)
      requires Going(j, Walk(users, owner, matching, [], []))
      requires j.inst == inst && j.alg == alg && j.nalg == nalg
      modifies this`users, this`owner
      ensures Over(j, Walk(users, owner, [], [], secondary))
    {
      var top, stack := matching, [];
      var spawns := Some(Top);
      secondary := [];
      ghost var w := Walk(users, owner, top, stack, secondary);
      hide Going, Left, Over;
      while spawns.Some?
        invariant w == Walk(users, owner, top, stack, secondary) && Going(j, w)
        invariant if spawns.Some? then Descends(j, w) && spawns.value == PlaceOf(inst, stack)
                  else stack == [] && top == []
        decreases spawns.Some?, Left(j, w)
      {
        top, stack := Descend(nalg, top, stack, secondary, spawns.value, j);
        w := Walk(users, owner, top, stack, secondary);
        if stack != [] {
          PopGoes(j, w);
          w := Pop(w, inst, alg);
        }
        stack, secondary, spawns := MoreSpawns(alg, stack, secondary);
      }
      GoesOver(j, w);
    }

    /** crypto_remove_spawns, on any acyclic use: the alg fields end up as asked
        for exactly if no instance on the way to `nalg` is reached twice. */
    method RemoveSpawns(alg: nat, nalg: Option<nat>, ghost j: Job)
      requires Sound(j) && j.users == users && j.owner == owner && j.inst == inst
      requires j.alg == alg && j.nalg == nalg
      requires forall x :: x in UsersOf(users, alg) ==> (x in j.chosen <==> Matches(alg, nalg, x))
      modifies this
      ensures (OutcomeOwner(j, owner) <==> Apart(j)) && Sparing(j, owner)
      ensures OutcomeUsers(j, owner, users) && OutcomeReg(j, owner, old(reg), live, reg)
    {
      hide *;
      SoundStart(j);
      var top := TakeMatching(alg, nalg, j.chosen);
      StartOk(j, top, users);
      StartGoes(j, Walk(users, owner, top, [], []));
      var secondary := WalkAll(alg, nalg, top, j);
      ghost var w := Walk(users, owner, [], [], secondary);
      OutcomeIsOwner(j, w);
      OverSparing(j, w);
      Settle(secondary, j, w);
    }
  }

  lemma SettleNothing(j: Job, w: Walk, r0: Reg, live: set<nat>)
    ensures SettledUsers(j, w.owner, w.users, [], w.users) && RegOk(j, w.owner, r0, live, [], r0)
  {
    assert forall a :: KeptUsers(j, w.owner, [], a) == [];
    assert Killed(j, w.owner, []) == {};
  }
}

/** What the kernel's intrusive lists and two-element arrays become here: an
    element is on a list at most once and can be taken out wherever it is. */
module Lists {

  datatype Option<+T> = None | Some(value: T)

  /** Data direction; the source's READ and WRITE. */
  datatype Dir = Read | Write

  /** An array indexed by direction. */
  datatype Two<T> = Two(read: T, write: T) {
    function Get(d: Dir): T {
      if d.Read? then read else write
    }

    function Set(d: Dir, v: T): Two<T> {
      if d.Read? then this.(read := v) else this.(write := v)
    }
  }

  predicate Distinct<T(==)>(l: seq<T>) {
    forall i, j :: 0 <= i < j < |l| ==> l[i] != l[j]
  }

  /** list_del. */
  function Without<T(==)>(l: seq<T>, x: T): seq<T> {
    if l == [] then [] else if l[0] == x then l[1..] else [l[0]] + Without(l[1..], x)
  }

  lemma {:induction false} WithoutAt<T>(l: seq<T>, i: nat)
    requires Distinct(l) && i < |l|
    ensures Without(l, l[i]) == l[..i] + l[i + 1..]
  {
    if i > 0 {
      WithoutAt(l[1..], i - 1);
      assert l[..i] + l[i + 1..] == [l[0]] + (l[1..][..i - 1] + l[1..][i..]);
    }
  }

  lemma {:induction false} WithoutAbsent<T>(l: seq<T>, x: T)
    requires x !in l
    ensures Without(l, x) == l
  {
    if l != [] {
      WithoutAbsent(l[1..], x);
    }
  }

  lemma WithoutMembers<T>(l: seq<T>, x: T)
    requires Distinct(l)
    ensures Distinct(Without(l, x)) && forall y :: y in Without(l, x) <==> y in l && y != x
    ensures |Without(l, x)| == |l| - if x in l then 1 else 0
    ensures x !in l ==> Without(l, x) == l
  {
    if x in l {
      var i :| 0 <= i < |l| && l[i] == x;
      WithoutAt(l, i);
      Spliced(l, i);
    } else {
      WithoutAbsent(l, x);
    }
  }

  lemma Spliced<T>(l: seq<T>, i: nat)
    requires Distinct(l) && i < |l|
    ensures var r := l[..i] + l[i + 1..]; Distinct(r) && forall y :: y in r <==> y in l && y != l[i]
  {
    var r := l[..i] + l[i + 1..];
    assert forall k :: 0 <= k < |r| ==> r[k] == if k < i then l[k] else l[k + 1];
    forall y | y in l && y != l[i]
      ensures y in r
    {
      var k :| 0 <= k < |l| && l[k] == y;
      assert r[if k < i then k else k - 1] == y;
    }
  }

  lemma DropPast<T>(a: seq<T>, b: seq<T>, n: nat)
    requires |a| <= n <= |a| + |b|
    ensures (a + b)[n..] == b[n - |a|..]
  {
  }

  lemma DropWithin<T>(a: seq<T>, b: seq<T>, n: nat)
    requires n <= |a|
    ensures (a + b)[n..] == a[n..] + b
  {
  }

  lemma Regroup<T>(a: seq<T>, b: seq<T>, c: seq<T>)
    ensures a + (b + c) == a + b + c
  {
  }

  lemma DistinctSnoc<T>(l: seq<T>, x: T)
    requires Distinct(l) && x !in l
    ensures Distinct(l + [x])
  {
  }
}

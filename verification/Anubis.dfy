/** The Anubis block cipher (crypto/anubis.c). A block is a four by four matrix of
    bytes held in four words; encryption and decryption are the same routine under
    two key schedules. */
module Anubis {
  import opened AnubisTables

  // ---------------------------------------------------------------------- bytes

  function B0(w: bv32): bv8 {
    ((w >> 24) & 0xff) as bv8
  }

  function B1(w: bv32): bv8 {
    ((w >> 16) & 0xff) as bv8
  }

  function B2(w: bv32): bv8 {
    ((w >> 8) & 0xff) as bv8
  }

  function B3(w: bv32): bv8 {
    (w & 0xff) as bv8
  }

  function Word(a: bv8, b: bv8, c: bv8, d: bv8): bv32 {
    ((a as bv32) << 24) | ((b as bv32) << 16) | ((c as bv32) << 8) | (d as bv32)
  }

  /** The four bytes of a word. */
  datatype Row = Row(a: bv8, b: bv8, c: bv8, d: bv8)

  function Unpack(w: bv32): Row {
    Row(B0(w), B1(w), B2(w), B3(w))
  }

  function Pack(r: Row): bv32 {
    Word(r.a, r.b, r.c, r.d)
  }

  /** Addition of bytes in the field. */
  function X(x: bv8, y: bv8): bv8 {
    x ^ y
  }

  function Xor(x: Row, y: Row): Row {
    Row(X(x.a, y.a), X(x.b, y.b), X(x.c, y.c), X(x.d, y.d))
  }

  lemma UnpackPack(r: Row)
    ensures Unpack(Pack(r)) == r
  {
  }

  lemma PackUnpack(w: bv32)
    ensures Pack(Unpack(w)) == w
  {
  }

  function XW(v: bv32, w: bv32): bv32 {
    v ^ w
  }

  lemma UnpackXor(v: bv32, w: bv32)
    ensures Unpack(XW(v, w)) == Xor(Unpack(v), Unpack(w))
  {
  }

  lemma SameRows(v: bv32, w: bv32)
    requires Unpack(v) == Unpack(w)
    ensures v == w
  {
    PackUnpack(v);
    PackUnpack(w);
    hide *;
  }

  // ------------------------------------------------------------- the byte layers

  /** The two boxes of four bits that the substitution box is made of. */
  function P(x: bv4): bv4 {
    if x < 0x8 then
      if x < 0x4 then
        if x < 0x2 then if x < 0x1 then 0x3 else 0xf else if x < 0x3 then 0xe else 0x0
      else
        if x < 0x6 then if x < 0x5 then 0x5 else 0x4 else if x < 0x7 then 0xb else 0xc
    else
      if x < 0xc then
        if x < 0xa then if x < 0x9 then 0xd else 0xa else if x < 0xb then 0x9 else 0x6
      else
        if x < 0xe then if x < 0xd then 0x7 else 0x8 else if x < 0xf then 0x2 else 0x1
  }

  function Q(x: bv4): bv4 {
    if x < 0x8 then
      if x < 0x4 then
        if x < 0x2 then if x < 0x1 then 0x9 else 0xe else if x < 0x3 then 0x5 else 0x6
      else
        if x < 0x6 then if x < 0x5 then 0xa else 0x2 else if x < 0x7 then 0x3 else 0xc
    else
      if x < 0xc then
        if x < 0xa then if x < 0x9 then 0xf else 0x0 else if x < 0xb then 0x4 else 0xd
      else
        if x < 0xe then if x < 0xd then 0x7 else 0xb else if x < 0xf then 0x1 else 0x8
  }

  function Upper(x: bv8): bv4 {
    ((x >> 4) & 0x0f) as bv4
  }

  function Lower(x: bv8): bv4 {
    (x & 0x0f) as bv4
  }

  /** Two halves, with the lower bits of the upper one and the upper bits of the
      lower one exchanged. */
  function Crossed(u: bv4, l: bv4): bv8 {
    ((u as bv8 & 0xc) << 4) | ((l as bv8 & 0xc) << 2) | ((u as bv8 & 0x3) << 2) | (l as bv8 & 0x3)
  }

  function Joined(u: bv4, l: bv4): bv8 {
    (u as bv8 << 4) | (l as bv8)
  }

  /** The substitution box: three layers of small boxes. */
  function S(x: bv8): bv8 {
    var y := Crossed(P(Upper(x)), Q(Lower(x)));
    var z := Crossed(Q(Upper(y)), P(Lower(y)));
    Joined(P(Upper(z)), Q(Lower(z)))
  }

  /** Multiplication by two in the field with polynomial 0x11d. */
  function M2(x: bv8): bv8 {
    (x << 1) ^ (if x & 0x80 != 0 then 0x1d else 0)
  }

  function M4(x: bv8): bv8 {
    M2(M2(x))
  }

  function M6(x: bv8): bv8 {
    X(M4(x), M2(x))
  }

  function M8(x: bv8): bv8 {
    M2(M4(x))
  }

  function X4(a: bv8, b: bv8, c: bv8, d: bv8): bv8 {
    X(X(a, b), X(c, d))
  }

  /** The diffusion layer on one row: the matrix had(1, 2, 4, 6). */
  function Theta(r: Row): Row {
    Row(X4(r.a, M2(r.b), M4(r.c), M6(r.d)), X4(M2(r.a), r.b, M6(r.c), M4(r.d)),
        X4(M4(r.a), M6(r.b), r.c, M2(r.d)), X4(M6(r.a), M4(r.b), M2(r.c), r.d))
  }

  lemma SmallBoxes(x: bv4)
    ensures P(P(x)) == x && Q(Q(x)) == x
  {
  }

  lemma Halves(u: bv4, l: bv4)
    ensures var y := Crossed(u, l); Crossed(Upper(y), Lower(y)) == Joined(u, l)
    ensures Upper(Joined(u, l)) == u && Lower(Joined(u, l)) == l
  {
  }

  lemma Rejoined(x: bv8)
    ensures Joined(Upper(x), Lower(x)) == x
  {
  }

  /** Each layer of the box undoes the one on the other side. */
  lemma SInvolution(x: bv8)
    ensures S(S(x)) == x
  {
    hide P, Q, Upper, Lower, Crossed, Joined;
    var y := Crossed(P(Upper(x)), Q(Lower(x)));
    var z := Crossed(Q(Upper(y)), P(Lower(y)));
    var a, b := P(Upper(z)), Q(Lower(z));
    Halves(a, b);
    SmallBoxes(Upper(z));
    SmallBoxes(Lower(z));
    SmallBoxes(Upper(y));
    SmallBoxes(Lower(y));
    SmallBoxes(Upper(x));
    SmallBoxes(Lower(x));
    Halves(Q(Upper(y)), P(Lower(y)));
    Halves(P(Upper(x)), Q(Lower(x)));
    Rejoined(x);
    Rejoined(y);
    Rejoined(z);
  }

  lemma M2Clear(x: bv8, y: bv8)
    requires x & 0x80 == 0 && y & 0x80 == 0
    ensures M2(X(x, y)) == X(M2(x), M2(y))
  {
  }

  lemma M2One(x: bv8, y: bv8)
    requires x & 0x80 != 0 && y & 0x80 == 0
    ensures M2(X(x, y)) == X(M2(x), M2(y)) && M2(X(y, x)) == X(M2(y), M2(x))
  {
  }

  lemma M2Both(x: bv8, y: bv8)
    requires x & 0x80 != 0 && y & 0x80 != 0
    ensures M2(X(x, y)) == X(M2(x), M2(y))
  {
  }

  lemma M2Linear(x: bv8, y: bv8)
    ensures M2(X(x, y)) == X(M2(x), M2(y))
  {
    hide M2, X;
    if x & 0x80 == 0 {
      if y & 0x80 == 0 {
        M2Clear(x, y);
      } else {
        M2One(y, x);
      }
    } else if y & 0x80 == 0 {
      M2One(x, y);
    } else {
      M2Both(x, y);
    }
  }

  lemma Swap(x: bv8, y: bv8, z: bv8, w: bv8)
    ensures X(X(x, y), X(z, w)) == X(X(x, z), X(y, w))
  {
    assert (x ^ y) ^ (z ^ w) == (x ^ z) ^ (y ^ w);
  }

  lemma MLinear(x: bv8, y: bv8)
    ensures M2(X(x, y)) == X(M2(x), M2(y)) && M4(X(x, y)) == X(M4(x), M4(y)) && M6(X(x, y)) == X(M6(x), M6(y))
    ensures M8(X(x, y)) == X(M8(x), M8(y))
  {
    hide M2, X;
    M2Linear(x, y);
    M2Linear(M2(x), M2(y));
    M2Linear(M4(x), M4(y));
    Swap(M4(x), M4(y), M2(x), M2(y));
  }

  lemma Swap4(a: bv8, a': bv8, b: bv8, b': bv8, c: bv8, c': bv8, d: bv8, d': bv8)
    ensures X4(X(a, a'), X(b, b'), X(c, c'), X(d, d')) == X(X4(a, b, c, d), X4(a', b', c', d'))
  {
    hide X;
    Swap(a, a', b, b');
    Swap(c, c', d, d');
    Swap(X(a, b), X(a', b'), X(c, d), X(c', d'));
  }

  /** The diffusion layer is linear. */
  lemma ThetaLinear(x: Row, y: Row)
    ensures Theta(Xor(x, y)) == Xor(Theta(x), Theta(y))
  {
    hide M2, M4, M6, X, X4;
    MLinear(x.a, y.a);
    MLinear(x.b, y.b);
    MLinear(x.c, y.c);
    MLinear(x.d, y.d);
    Swap4(x.a, y.a, M2(x.b), M2(y.b), M4(x.c), M4(y.c), M6(x.d), M6(y.d));
    Swap4(M2(x.a), M2(y.a), x.b, y.b, M6(x.c), M6(y.c), M4(x.d), M4(y.d));
    Swap4(M4(x.a), M4(y.a), M6(x.b), M6(y.b), x.c, y.c, M2(x.d), M2(y.d));
    Swap4(M6(x.a), M6(y.a), M4(x.b), M4(y.b), M2(x.c), M2(y.c), x.d, y.d);
  }

  /** Products of the matrix entries, by powers of two. */
  lemma Products(x: bv8)
    ensures M4(M4(x)) == M2(M2(M2(M2(x)))) && M4(M2(x)) == M2(M4(x))
    ensures M6(M2(x)) == X(M2(M4(x)), M4(x)) == M2(M6(x))
    ensures M6(M4(x)) == X(M4(M4(x)), M2(M4(x))) == M4(M6(x)) && M6(M6(x)) == X(M4(M4(x)), M4(x))
  {
    hide M2, X;
    MLinear(M4(x), M2(x));
    Cancel(M4(M4(x)), M2(M4(x)), M4(x));
  }

  lemma Commute(x: bv8, y: bv8)
    ensures X(x, y) == X(y, x)
  {
    assert x ^ y == y ^ x;
  }

  lemma AddTwice(x: bv8, y: bv8)
    ensures X(x, X(x, y)) == y
  {
    assert x ^ (x ^ y) == y;
  }

  lemma Absorb(x: bv8, y: bv8)
    ensures X(x, y) == X(y, x) && X(x, X(x, y)) == y && X(X(x, y), y) == x
  {
    hide X;
    Commute(x, y);
    AddTwice(x, y);
    AddTwice(y, x);
    Commute(X(x, y), y);
  }

  lemma Cancel(x: bv8, y: bv8, z: bv8)
    ensures X(X(x, y), X(y, z)) == X(x, z)
  {
    assert (x ^ y) ^ (y ^ z) == x ^ z;
  }

  lemma Zero(x: bv8)
    ensures X(x, 0) == x == X(0, x) && X(x, x) == 0 && M2(0) == 0
  {
  }

  /** Sums that occur in the square of the matrix. */
  lemma Sums(x: bv8, p: bv8, q: bv8)
    ensures X4(x, p, q, X(q, p)) == x && X4(X(q, p), q, p, x) == x && X4(p, x, X(q, p), q) == x
    ensures X4(q, X(q, p), x, p) == x
    ensures X4(p, p, q, q) == 0 && X4(p, q, p, q) == 0 && X4(p, q, q, p) == 0
  {
    hide X;
    Absorb(p, q);
    Absorb(q, p);
    Absorb(x, p);
    Absorb(p, x);
    Zero(p);
    Zero(q);
    Zero(0);
    Zero(X(p, q));
  }

  lemma ThetaZero()
    ensures M2(0) == 0 && M4(0) == 0 && M6(0) == 0
  {
  }

  lemma ThetaUnit(x: bv8)
    ensures Theta(Row(x, 0, 0, 0)) == Row(x, M2(x), M4(x), M6(x))
    ensures Theta(Row(0, x, 0, 0)) == Row(M2(x), x, M6(x), M4(x))
    ensures Theta(Row(0, 0, x, 0)) == Row(M4(x), M6(x), x, M2(x))
    ensures Theta(Row(0, 0, 0, x)) == Row(M6(x), M4(x), M2(x), x)
  {
    ThetaZero();
    hide X, M2, M4, M6;
    Zero(0);
    Zero(x);
    Zero(M2(x));
    Zero(M4(x));
    Zero(M6(x));
  }

  lemma ThetaOne(x: bv8)
    ensures Theta(Theta(Row(x, 0, 0, 0))) == Row(x, 0, 0, 0) && Theta(Theta(Row(0, x, 0, 0))) == Row(0, x, 0, 0)
    ensures Theta(Theta(Row(0, 0, x, 0))) == Row(0, 0, x, 0) && Theta(Theta(Row(0, 0, 0, x))) == Row(0, 0, 0, x)
  {
    hide M2, M6, X, X4;
    ThetaUnit(x);
    Products(x);
    Sums(x, M4(x), M4(M4(x)));
    Sums(x, M2(x), M6(M4(x)));
    Sums(x, M6(M4(x)), M2(x));
    Sums(x, M4(x), M6(M2(x)));
    Sums(x, M6(M2(x)), M4(x));
    Sums(x, M6(x), M2(M4(x)));
    Sums(x, M2(M4(x)), M6(x));
  }

  lemma ThetaTwice(x: Row, y: Row)
    requires Theta(Theta(x)) == x && Theta(Theta(y)) == y
    ensures Theta(Theta(Xor(x, y))) == Xor(x, y)
  {
    ThetaLinear(x, y);
    ThetaLinear(Theta(x), Theta(y));
    hide *;
  }

  /** ... and its own inverse. */
  lemma ThetaInvolution(r: Row)
    ensures Theta(Theta(r)) == r
  {
    ThetaOne(r.a);
    ThetaOne(r.b);
    ThetaOne(r.c);
    ThetaOne(r.d);
    var ab := Xor(Row(r.a, 0, 0, 0), Row(0, r.b, 0, 0));
    var cd := Xor(Row(0, 0, r.c, 0), Row(0, 0, 0, r.d));
    ThetaTwice(Row(r.a, 0, 0, 0), Row(0, r.b, 0, 0));
    ThetaTwice(Row(0, 0, r.c, 0), Row(0, 0, 0, r.d));
    ThetaTwice(ab, cd);
    Zero(r.a);
    Zero(r.b);
    Zero(r.c);
    Zero(r.d);
    Zero(0);
    hide Theta, X;
    assert Xor(ab, cd) == r;
  }

  // ----------------------------------------------------------------- the tables

  /** What the tables hold: the substitution box combined with one column of the
      diffusion matrix, the box in every byte, and multiples of the index. */
  predicate Tabulated(x: bv8) {
    && T0(x) == Word(S(x), M2(S(x)), M4(S(x)), M6(S(x))) && T1(x) == Word(M2(S(x)), S(x), M6(S(x)), M4(S(x)))
    && T2(x) == Word(M4(S(x)), M6(S(x)), S(x), M2(S(x))) && T3(x) == Word(M6(S(x)), M4(S(x)), M2(S(x)), S(x))
    && T4(x) == Word(S(x), S(x), S(x), S(x)) && T5(x) == Word(x, M2(x), M6(x), M8(x))
  }

  lemma Row0(x: bv8)
    requires 0x00 <= x <= 0x0f
    ensures Tabulated(x)
  {
  }

  lemma Row1(x: bv8)
    requires 0x10 <= x <= 0x1f
    ensures Tabulated(x)
  {
  }

  lemma Row2(x: bv8)
    requires 0x20 <= x <= 0x2f
    ensures Tabulated(x)
  {
  }

  lemma Row3(x: bv8)
    requires 0x30 <= x <= 0x3f
    ensures Tabulated(x)
  {
  }

  lemma Row4(x: bv8)
    requires 0x40 <= x <= 0x4f
    ensures Tabulated(x)
  {
  }

  lemma Row5(x: bv8)
    requires 0x50 <= x <= 0x5f
    ensures Tabulated(x)
  {
  }

  lemma Row6(x: bv8)
    requires 0x60 <= x <= 0x6f
    ensures Tabulated(x)
  {
  }

  lemma Row7(x: bv8)
    requires 0x70 <= x <= 0x7f
    ensures Tabulated(x)
  {
  }

  lemma Row8(x: bv8)
    requires 0x80 <= x <= 0x8f
    ensures Tabulated(x)
  {
  }

  lemma Row9(x: bv8)
    requires 0x90 <= x <= 0x9f
    ensures Tabulated(x)
  {
  }

  lemma RowA(x: bv8)
    requires 0xa0 <= x <= 0xaf
    ensures Tabulated(x)
  {
  }

  lemma RowB(x: bv8)
    requires 0xb0 <= x <= 0xbf
    ensures Tabulated(x)
  {
  }

  lemma RowC(x: bv8)
    requires 0xc0 <= x <= 0xcf
    ensures Tabulated(x)
  {
  }

  lemma RowD(x: bv8)
    requires 0xd0 <= x <= 0xdf
    ensures Tabulated(x)
  {
  }

  lemma RowE(x: bv8)
    requires 0xe0 <= x <= 0xef
    ensures Tabulated(x)
  {
  }

  lemma RowF(x: bv8)
    requires 0xf0 <= x <= 0xff
    ensures Tabulated(x)
  {
  }

  lemma Tables(x: bv8)
    ensures Tabulated(x)
  {
    hide Tabulated;
    if x < 0x80 {
      if x < 0x40 {
        if x < 0x20 {
          if x < 0x10 {
            Row0(x);
          } else {
            Row1(x);
          }
        } else {
          if x < 0x30 {
            Row2(x);
          } else {
            Row3(x);
          }
        }
      } else {
        if x < 0x60 {
          if x < 0x50 {
            Row4(x);
          } else {
            Row5(x);
          }
        } else {
          if x < 0x70 {
            Row6(x);
          } else {
            Row7(x);
          }
        }
      }
    } else {
      if x < 0xc0 {
        if x < 0xa0 {
          if x < 0x90 {
            Row8(x);
          } else {
            Row9(x);
          }
        } else {
          if x < 0xb0 {
            RowA(x);
          } else {
            RowB(x);
          }
        }
      } else {
        if x < 0xe0 {
          if x < 0xd0 {
            RowC(x);
          } else {
            RowD(x);
          }
        } else {
          if x < 0xf0 {
            RowE(x);
          } else {
            RowF(x);
          }
        }
      }
    }
  }

  lemma TableRows(x: bv8)
    ensures Unpack(T0(x)) == Theta(Row(S(x), 0, 0, 0)) && Unpack(T1(x)) == Theta(Row(0, S(x), 0, 0))
    ensures Unpack(T2(x)) == Theta(Row(0, 0, S(x), 0)) && Unpack(T3(x)) == Theta(Row(0, 0, 0, S(x)))
    ensures Unpack(T4(x)) == Row(S(x), S(x), S(x), S(x)) && Unpack(T5(x)) == Row(x, M2(x), M6(x), M8(x))
  {
    hide T0, T1, T2, T3, T4, T5, S, M2, M4, M6, M8, Theta, Unpack, Word;
    Tables(x);
    var s := S(x);
    ThetaUnit(s);
    UnpackPack(Row(s, M2(s), M4(s), M6(s)));
    UnpackPack(Row(M2(s), s, M6(s), M4(s)));
    UnpackPack(Row(M4(s), M6(s), s, M2(s)));
    UnpackPack(Row(M6(s), M4(s), M2(s), s));
    UnpackPack(Row(s, s, s, s));
    UnpackPack(Row(x, M2(x), M6(x), M8(x)));
  }

  lemma RowSum(a: bv8, b: bv8, c: bv8, d: bv8)
    ensures Xor(Xor(Xor(Row(a, 0, 0, 0), Row(0, b, 0, 0)), Row(0, 0, c, 0)), Row(0, 0, 0, d)) == Row(a, b, c, d)
  {
    hide X;
    Zero(a);
    Zero(b);
    Zero(c);
    Zero(d);
    Zero(0);
  }

  lemma ThetaSum(a: bv8, b: bv8, c: bv8, d: bv8)
    ensures Xor(Xor(Xor(Theta(Row(a, 0, 0, 0)), Theta(Row(0, b, 0, 0))), Theta(Row(0, 0, c, 0))),
                Theta(Row(0, 0, 0, d)))
            == Theta(Row(a, b, c, d))
  {
    hide Theta, Xor;
    var u, v, w, z := Row(a, 0, 0, 0), Row(0, b, 0, 0), Row(0, 0, c, 0), Row(0, 0, 0, d);
    RowSum(a, b, c, d);
    ThetaLinear(u, v);
    ThetaLinear(Xor(u, v), w);
    ThetaLinear(Xor(Xor(u, v), w), z);
  }

  /** The words of the tables and of a round key, added up. */
  function XW5(p: bv32, q: bv32, r: bv32, s: bv32, k: bv32): bv32 {
    XW(XW(XW(XW(p, q), r), s), k)
  }

  lemma UnpackXor5(p: bv32, q: bv32, r: bv32, s: bv32, k: bv32)
    ensures Unpack(XW5(p, q, r, s, k)) == Xor(Xor(Xor(Xor(Unpack(p), Unpack(q)), Unpack(r)), Unpack(s)), Unpack(k))
  {
    hide Unpack, Xor, XW;
    UnpackXor(p, q);
    UnpackXor(XW(p, q), r);
    UnpackXor(XW(XW(p, q), r), s);
    UnpackXor(XW(XW(XW(p, q), r), s), k);
  }

  function Only0(w: bv32): bv32 {
    w & 0xff000000
  }

  function Only1(w: bv32): bv32 {
    w & 0x00ff0000
  }

  function Only2(w: bv32): bv32 {
    w & 0x0000ff00
  }

  function Only3(w: bv32): bv32 {
    w & 0x000000ff
  }

  lemma Masks(w: bv32)
    ensures Unpack(Only0(w)) == Row(B0(w), 0, 0, 0) && Unpack(Only1(w)) == Row(0, B1(w), 0, 0)
    ensures Unpack(Only2(w)) == Row(0, 0, B2(w), 0) && Unpack(Only3(w)) == Row(0, 0, 0, B3(w))
  {
  }

  // ----------------------------------------------------------------- the rounds

  /** The cipher state and a round key: four words, each a row of the matrix. */
  datatype State = State(w0: bv32, w1: bv32, w2: bv32, w3: bv32)

  function RoundWord(a: bv8, b: bv8, c: bv8, d: bv8, k: bv32): bv32 {
    XW5(T0(a), T1(b), T2(c), T3(d), k)
  }

  function LastWord(a: bv8, b: bv8, c: bv8, d: bv8, k: bv32): bv32 {
    XW5(Only0(T0(a)), Only1(T1(b)), Only2(T2(c)), Only3(T3(d)), k)
  }

  /** A full round, by the tables. */
  function Round(s: State, k: State): State {
    State(RoundWord(B0(s.w0), B0(s.w1), B0(s.w2), B0(s.w3), k.w0),
          RoundWord(B1(s.w0), B1(s.w1), B1(s.w2), B1(s.w3), k.w1),
          RoundWord(B2(s.w0), B2(s.w1), B2(s.w2), B2(s.w3), k.w2),
          RoundWord(B3(s.w0), B3(s.w1), B3(s.w2), B3(s.w3), k.w3))
  }

  function LastRound(s: State, k: State): State {
    State(LastWord(B0(s.w0), B0(s.w1), B0(s.w2), B0(s.w3), k.w0),
          LastWord(B1(s.w0), B1(s.w1), B1(s.w2), B1(s.w3), k.w1),
          LastWord(B2(s.w0), B2(s.w1), B2(s.w2), B2(s.w3), k.w2),
          LastWord(B3(s.w0), B3(s.w1), B3(s.w2), B3(s.w3), k.w3))
  }

  function AddKey(s: State, k: State): State {
    State(XW(s.w0, k.w0), XW(s.w1, k.w1), XW(s.w2, k.w2), XW(s.w3, k.w3))
  }

  /** Substitution and transposition. */
  function SubTranspose(s: State): State {
    State(Word(S(B0(s.w0)), S(B0(s.w1)), S(B0(s.w2)), S(B0(s.w3))),
          Word(S(B1(s.w0)), S(B1(s.w1)), S(B1(s.w2)), S(B1(s.w3))),
          Word(S(B2(s.w0)), S(B2(s.w1)), S(B2(s.w2)), S(B2(s.w3))),
          Word(S(B3(s.w0)), S(B3(s.w1)), S(B3(s.w2)), S(B3(s.w3))))
  }

  function ThetaWord(w: bv32): bv32 {
    Pack(Theta(Unpack(w)))
  }

  function Diffuse(s: State): State {
    State(ThetaWord(s.w0), ThetaWord(s.w1), ThetaWord(s.w2), ThetaWord(s.w3))
  }

  lemma RoundWordIs(a: bv8, b: bv8, c: bv8, d: bv8, k: bv32)
    ensures RoundWord(a, b, c, d, k) == XW(ThetaWord(Word(S(a), S(b), S(c), S(d))), k)
  {
    hide T0, T1, T2, T3, S, Theta, Xor, Unpack, Word, XW, XW5;
    TableRows(a);
    TableRows(b);
    TableRows(c);
    TableRows(d);
    UnpackXor5(T0(a), T1(b), T2(c), T3(d), k);
    ThetaSum(S(a), S(b), S(c), S(d));
    var r := Row(S(a), S(b), S(c), S(d));
    UnpackPack(r);
    UnpackPack(Theta(r));
    UnpackXor(ThetaWord(Pack(r)), k);
    SameRows(RoundWord(a, b, c, d, k), XW(ThetaWord(Pack(r)), k));
  }

  lemma Diagonal(x: bv8)
    ensures B0(T0(x)) == S(x) && B1(T1(x)) == S(x) && B2(T2(x)) == S(x) && B3(T3(x)) == S(x)
  {
    hide T0, T1, T2, T3, S, M2, M4, M6, Theta, B0, B1, B2, B3;
    TableRows(x);
    ThetaUnit(S(x));
  }

  lemma LastWordIs(a: bv8, b: bv8, c: bv8, d: bv8, k: bv32)
    ensures LastWord(a, b, c, d, k) == XW(Word(S(a), S(b), S(c), S(d)), k)
  {
    hide T0, T1, T2, T3, S, Xor, Unpack, Word, B0, B1, B2, B3, XW, XW5, Only0, Only1, Only2, Only3;
    Diagonal(a);
    Diagonal(b);
    Diagonal(c);
    Diagonal(d);
    Masks(T0(a));
    Masks(T1(b));
    Masks(T2(c));
    Masks(T3(d));
    UnpackXor5(Only0(T0(a)), Only1(T1(b)), Only2(T2(c)), Only3(T3(d)), k);
    RowSum(S(a), S(b), S(c), S(d));
    var r := Row(S(a), S(b), S(c), S(d));
    UnpackPack(r);
    UnpackXor(Pack(r), k);
    SameRows(LastWord(a, b, c, d, k), XW(Pack(r), k));
  }

  /** A round substitutes, transposes, diffuses and adds the key. */
  lemma RoundIs(s: State, k: State)
    ensures Round(s, k) == AddKey(Diffuse(SubTranspose(s)), k)
  {
    hide RoundWord, S, ThetaWord, Word, B0, B1, B2, B3, XW;
    RoundWordIs(B0(s.w0), B0(s.w1), B0(s.w2), B0(s.w3), k.w0);
    RoundWordIs(B1(s.w0), B1(s.w1), B1(s.w2), B1(s.w3), k.w1);
    RoundWordIs(B2(s.w0), B2(s.w1), B2(s.w2), B2(s.w3), k.w2);
    RoundWordIs(B3(s.w0), B3(s.w1), B3(s.w2), B3(s.w3), k.w3);
  }

  /** The last round leaves out the diffusion. */
  lemma LastRoundIs(s: State, k: State)
    ensures LastRound(s, k) == AddKey(SubTranspose(s), k)
  {
    hide LastWord, S, Word, B0, B1, B2, B3, XW;
    LastWordIs(B0(s.w0), B0(s.w1), B0(s.w2), B0(s.w3), k.w0);
    LastWordIs(B1(s.w0), B1(s.w1), B1(s.w2), B1(s.w3), k.w1);
    LastWordIs(B2(s.w0), B2(s.w1), B2(s.w2), B2(s.w3), k.w2);
    LastWordIs(B3(s.w0), B3(s.w1), B3(s.w2), B3(s.w3), k.w3);
  }

  lemma WordBytes(a: bv8, b: bv8, c: bv8, d: bv8)
    ensures var w := Word(a, b, c, d); B0(w) == a && B1(w) == b && B2(w) == c && B3(w) == d
  {
    UnpackPack(Row(a, b, c, d));
    hide Word, B0, B1, B2, B3;
  }

  lemma SOfWord(a: bv8, b: bv8, c: bv8, d: bv8)
    ensures var w := Word(S(a), S(b), S(c), S(d)); S(B0(w)) == a && S(B1(w)) == b && S(B2(w)) == c && S(B3(w)) == d
  {
    hide S, Word, B0, B1, B2, B3;
    WordBytes(S(a), S(b), S(c), S(d));
    SInvolution(a);
    SInvolution(b);
    SInvolution(c);
    SInvolution(d);
  }

  lemma BytesOf(w: bv32)
    ensures Word(B0(w), B1(w), B2(w), B3(w)) == w
  {
    PackUnpack(w);
    hide Word, B0, B1, B2, B3;
  }

  /** Substituting and transposing twice changes nothing. */
  lemma SubTransposeTwice(s: State)
    ensures SubTranspose(SubTranspose(s)) == s
  {
    hide S, Word, B0, B1, B2, B3;
    SOfWord(B0(s.w0), B0(s.w1), B0(s.w2), B0(s.w3));
    SOfWord(B1(s.w0), B1(s.w1), B1(s.w2), B1(s.w3));
    SOfWord(B2(s.w0), B2(s.w1), B2(s.w2), B2(s.w3));
    SOfWord(B3(s.w0), B3(s.w1), B3(s.w2), B3(s.w3));
    BytesOf(s.w0);
    BytesOf(s.w1);
    BytesOf(s.w2);
    BytesOf(s.w3);
  }

  lemma ThetaWordTwice(w: bv32)
    ensures ThetaWord(ThetaWord(w)) == w
  {
    hide Theta, Unpack, Pack;
    UnpackPack(Theta(Unpack(w)));
    ThetaInvolution(Unpack(w));
    PackUnpack(w);
  }

  lemma ThetaWordLinear(v: bv32, w: bv32)
    ensures ThetaWord(XW(v, w)) == XW(ThetaWord(v), ThetaWord(w))
  {
    hide Theta, Unpack, Pack, Xor, XW;
    UnpackXor(v, w);
    ThetaLinear(Unpack(v), Unpack(w));
    UnpackPack(Theta(Unpack(v)));
    UnpackPack(Theta(Unpack(w)));
    UnpackPack(Theta(Unpack(XW(v, w))));
    UnpackXor(ThetaWord(v), ThetaWord(w));
    SameRows(ThetaWord(XW(v, w)), XW(ThetaWord(v), ThetaWord(w)));
  }

  lemma XWTwice(v: bv32, w: bv32)
    ensures XW(XW(v, w), w) == v
  {
    assert (v ^ w) ^ w == v;
  }

  lemma AddKeyTwice(s: State, k: State)
    ensures AddKey(AddKey(s, k), k) == s
  {
    hide XW;
    XWTwice(s.w0, k.w0);
    XWTwice(s.w1, k.w1);
    XWTwice(s.w2, k.w2);
    XWTwice(s.w3, k.w3);
  }

  lemma DiffuseTwice(s: State)
    ensures Diffuse(Diffuse(s)) == s
  {
    hide ThetaWord;
    ThetaWordTwice(s.w0);
    ThetaWordTwice(s.w1);
    ThetaWordTwice(s.w2);
    ThetaWordTwice(s.w3);
  }

  lemma DiffuseKey(s: State, k: State)
    ensures Diffuse(AddKey(s, k)) == AddKey(Diffuse(s), Diffuse(k))
  {
    hide ThetaWord, XW;
    ThetaWordLinear(s.w0, k.w0);
    ThetaWordLinear(s.w1, k.w1);
    ThetaWordLinear(s.w2, k.w2);
    ThetaWordLinear(s.w3, k.w3);
  }

  // ------------------------------------------------------------------ the cipher

  /** The state after round `r`, under keys `ks`. */
  function Rounds(ks: seq<State>, s: State, r: nat): State
    requires r < |ks|
  {
    if r == 0 then AddKey(s, ks[0]) else Round(Rounds(ks, s, r - 1), ks[r])
  }

  /** anubis_crypt on states: full rounds, then the last one. */
  function Crypt(ks: seq<State>, s: State): State
    requires |ks| >= 2
  {
    LastRound(Rounds(ks, s, |ks| - 2), ks[|ks| - 1])
  }

  /** The inverse key schedule: the keys backwards, all but the ends diffused. */
  function Inverse(ks: seq<State>): seq<State>
    requires |ks| >= 2
  {
    seq(|ks|, r requires 0 <= r < |ks| =>
      if r == 0 || r == |ks| - 1 then ks[|ks| - 1 - r] else Diffuse(ks[|ks| - 1 - r]))
  }

  /** Undoing `r` rounds leads back to the state before them, substituted and transposed. */
  lemma {:induction false} Backwards(ks: seq<State>, s: State, r: nat)
    requires |ks| >= 2 && r <= |ks| - 2
    ensures Rounds(Inverse(ks), Crypt(ks, s), r) == SubTranspose(Rounds(ks, s, |ks| - 2 - r))
  {
    hide Round, LastRound, SubTranspose, AddKey, Diffuse;
    var n := |ks| - 2;
    var c, x := Crypt(ks, s), Rounds(ks, s, n - r);
    if r == 0 {
      LastRoundIs(x, ks[n + 1]);
      AddKeyTwice(SubTranspose(x), ks[n + 1]);
    } else {
      Backwards(ks, s, r - 1);
      var y := Rounds(ks, s, n - r + 1);
      var k := ks[n - r + 1];
      RoundIs(SubTranspose(y), Diffuse(k));
      SubTransposeTwice(y);
      DiffuseKey(y, k);
      RoundIs(x, k);
      AddKeyTwice(Diffuse(SubTranspose(x)), k);
      DiffuseTwice(SubTranspose(x));
    }
  }

  /** Decryption undoes encryption, for any number of rounds and any round keys. */
  lemma CryptInverts(ks: seq<State>, s: State)
    requires |ks| >= 2
    ensures Crypt(Inverse(ks), Crypt(ks, s)) == s
  {
    hide Round, LastRound, SubTranspose, AddKey, Diffuse, Rounds;
    var n := |ks| - 2;
    Backwards(ks, s, n);
    var x := Rounds(ks, s, 0);
    LastRoundIs(SubTranspose(x), ks[0]);
    SubTransposeTwice(x);
    FirstRound(ks, s);
    AddKeyTwice(s, ks[0]);
  }

  lemma FirstRound(ks: seq<State>, s: State)
    requires |ks| > 0
    ensures Rounds(ks, s, 0) == AddKey(s, ks[0])
  {
  }

  // ------------------------------------------------------------ the key schedule

  /** The multipliers of the key selection: 1, 2, 6 and 8. */
  function Mul(l: nat, x: bv8): bv8 {
    if l == 0 then x else if l == 1 then M2(x) else if l == 2 then M6(x) else M8(x)
  }

  function Pow(l: nat, i: nat, x: bv8): bv8 {
    if i == 0 then x else Mul(l, Pow(l, i - 1, x))
  }

  /** One byte of a round key: the substituted key bytes weighted with the powers
      of a multiplier, a row of a Vandermonde matrix. */
  function Weighted(l: nat, xs: seq<bv8>): bv8 {
    if xs == [] then 0 else X(Weighted(l, xs[..|xs| - 1]), Pow(l, |xs| - 1, S(xs[|xs| - 1])))
  }

  /** One step of the selection by the tables. */
  function SelectStep(x: bv8, k: bv32): bv32 {
    XW5(T4(x), Only0(T5(B0(k))), Only1(T5(B1(k))), Only2(T5(B2(k))), Only3(T5(B3(k))))
  }

  /** The selection from the last key byte to the first. */
  function Select(xs: seq<bv8>): bv32
    requires xs != []
  {
    if |xs| == 1 then T4(xs[0]) else SelectStep(xs[0], Select(xs[1..]))
  }

  lemma MulLinear(l: nat, x: bv8, y: bv8)
    ensures Mul(l, X(x, y)) == X(Mul(l, x), Mul(l, y)) && Mul(l, 0) == 0
  {
    hide M2, M4, M6, M8, X;
    MLinear(x, y);
    ThetaZero();
    EightZero();
  }

  lemma EightZero()
    ensures M8(0) == 0
  {
  }

  lemma Associate(x: bv8, y: bv8, z: bv8)
    ensures X(X(x, y), z) == X(x, X(y, z))
  {
    assert (x ^ y) ^ z == x ^ (y ^ z);
  }

  lemma {:induction false} WeightedFirst(l: nat, xs: seq<bv8>)
    requires xs != []
    ensures Weighted(l, xs) == X(S(xs[0]), Mul(l, Weighted(l, xs[1..])))
  {
    hide S, X, Mul;
    var n := |xs| - 1;
    if n == 0 {
      MulLinear(l, 0, 0);
      Zero(S(xs[0]));
      assert xs[..0] == [];
    } else {
      var front := xs[..n];
      WeightedFirst(l, front);
      assert front[1..] == xs[1..][..n - 1];
      var w, p := Weighted(l, front[1..]), Pow(l, n - 1, S(xs[n]));
      MulLinear(l, w, p);
      Associate(S(xs[0]), Mul(l, w), Mul(l, p));
      assert Weighted(l, xs[1..]) == X(w, p);
    }
  }

  lemma SelectStepIs(x: bv8, k: bv32)
    ensures Unpack(SelectStep(x, k)) == Xor(Row(S(x), S(x), S(x), S(x)), Row(B0(k), M2(B1(k)), M6(B2(k)), M8(B3(k))))
  {
    hide T4, T5, S, M2, M6, M8, Unpack, Only0, Only1, Only2, Only3, XW, XW5, Xor, B0, B1, B2, B3;
    var a, b, c, d := B0(k), B1(k), B2(k), B3(k);
    TableRows(x);
    UnpackXor5(T4(x), Only0(T5(a)), Only1(T5(b)), Only2(T5(c)), Only3(T5(d)));
    Multiples(a);
    Multiples(b);
    Multiples(c);
    Multiples(d);
    Masks(T5(a));
    Masks(T5(b));
    Masks(T5(c));
    Masks(T5(d));
    var s := Row(S(x), S(x), S(x), S(x));
    RowSum(a, M2(b), M6(c), M8(d));
    XorRight(s, Row(a, 0, 0, 0), Row(0, M2(b), 0, 0), Row(0, 0, M6(c), 0), Row(0, 0, 0, M8(d)));
  }

  lemma Multiples(x: bv8)
    ensures B0(T5(x)) == x && B1(T5(x)) == M2(x) && B2(T5(x)) == M6(x) && B3(T5(x)) == M8(x)
  {
    TableRows(x);
    hide T5, M2, M6, M8, B0, B1, B2, B3;
  }

  lemma XorAssociate(x: Row, y: Row, z: Row)
    ensures Xor(Xor(x, y), z) == Xor(x, Xor(y, z))
  {
    hide X;
    Associate(x.a, y.a, z.a);
    Associate(x.b, y.b, z.b);
    Associate(x.c, y.c, z.c);
    Associate(x.d, y.d, z.d);
  }

  lemma XorRight(s: Row, p: Row, q: Row, r: Row, t: Row)
    ensures Xor(Xor(Xor(Xor(s, p), q), r), t) == Xor(s, Xor(Xor(Xor(p, q), r), t))
  {
    hide Xor;
    XorAssociate(s, p, q);
    XorAssociate(s, Xor(p, q), r);
    XorAssociate(s, Xor(Xor(p, q), r), t);
  }

  /** The tables compute the weighted sums. */
  lemma {:induction false} SelectIs(xs: seq<bv8>)
    requires xs != []
    ensures Unpack(Select(xs)) == Row(Weighted(0, xs), Weighted(1, xs), Weighted(2, xs), Weighted(3, xs))
  {
    hide S, T4, X, SelectStep, Weighted, M2, M6, M8, Unpack;
    WeightedFirst(0, xs);
    WeightedFirst(1, xs);
    WeightedFirst(2, xs);
    WeightedFirst(3, xs);
    if |xs| == 1 {
      TableRows(xs[0]);
      NoWeights(xs[1..]);
      MulLinear(0, 0, 0);
      MulLinear(1, 0, 0);
      MulLinear(2, 0, 0);
      MulLinear(3, 0, 0);
      Zero(S(xs[0]));
    } else {
      SelectIs(xs[1..]);
      SelectStepIs(xs[0], Select(xs[1..]));
      BytesAre(Select(xs[1..]));
    }
  }

  lemma BytesAre(w: bv32)
    ensures Unpack(w) == Row(B0(w), B1(w), B2(w), B3(w))
  {
    hide B0, B1, B2, B3;
  }

  lemma NoWeights(xs: seq<bv8>)
    requires xs == []
    ensures forall l: nat :: Weighted(l, xs) == 0
  {
  }

  const MAX_N := 10
  const MAX_ROUNDS := 8 + MAX_N

  function Column0(kappa: seq<bv32>): seq<bv8> {
    seq(|kappa|, i requires 0 <= i < |kappa| => B0(kappa[i]))
  }

  function Column1(kappa: seq<bv32>): seq<bv8> {
    seq(|kappa|, i requires 0 <= i < |kappa| => B1(kappa[i]))
  }

  function Column2(kappa: seq<bv32>): seq<bv8> {
    seq(|kappa|, i requires 0 <= i < |kappa| => B2(kappa[i]))
  }

  function Column3(kappa: seq<bv32>): seq<bv8> {
    seq(|kappa|, i requires 0 <= i < |kappa| => B3(kappa[i]))
  }

  /** The round key of a key state. */
  function RoundKey(kappa: seq<bv32>): State
    requires kappa != []
  {
    State(Select(Column0(kappa)), Select(Column1(kappa)), Select(Column2(kappa)), Select(Column3(kappa)))
  }

  /** The index `back` places before `i`, cyclically. */
  function Before(i: nat, back: nat, n: nat): (j: nat)
    requires i < n && back < n
    ensures j < n
  {
    if back <= i then i - back else i + n - back
  }

  /** One word of the next key state, without the constant. */
  function EvolveWord(kappa: seq<bv32>, i: nat): bv32
    requires |kappa| >= 4 && i < |kappa|
  {
    var n := |kappa|;
    XW(XW(XW(T0(B0(kappa[i])), T1(B1(kappa[Before(i, 1, n)]))), T2(B2(kappa[Before(i, 2, n)]))),
       T3(B3(kappa[Before(i, 3, n)])))
  }

  /** The key evolution: substitution, a cyclic shift within each column,
      diffusion and a round constant. */
  function Evolve(kappa: seq<bv32>, c: bv32): seq<bv32>
    requires |kappa| >= 4
  {
    seq(|kappa|, i requires 0 <= i < |kappa| => if i == 0 then XW(EvolveWord(kappa, 0), c) else EvolveWord(kappa, i))
  }

  lemma EvolveWordIs(kappa: seq<bv32>, i: nat)
    requires |kappa| >= 4 && i < |kappa|
    ensures var n := |kappa|;
            Unpack(EvolveWord(kappa, i))
            == Theta(Row(S(B0(kappa[i])), S(B1(kappa[Before(i, 1, n)])), S(B2(kappa[Before(i, 2, n)])),
                         S(B3(kappa[Before(i, 3, n)]))))
  {
    hide T0, T1, T2, T3, S, Theta, Xor, Unpack, XW, B0, B1, B2, B3;
    var n := |kappa|;
    var a, b, c, d := B0(kappa[i]), B1(kappa[Before(i, 1, n)]), B2(kappa[Before(i, 2, n)]), B3(kappa[Before(i, 3, n)]);
    TableRows(a);
    TableRows(b);
    TableRows(c);
    TableRows(d);
    UnpackXor(T0(a), T1(b));
    UnpackXor(XW(T0(a), T1(b)), T2(c));
    UnpackXor(XW(XW(T0(a), T1(b)), T2(c)), T3(d));
    ThetaSum(S(a), S(b), S(c), S(d));
  }

  /** Four values of the box. */
  function Quad(x: bv8): Row {
    Row(S(x), S(x + 1), S(x + 2), S(x + 3))
  }

  /** The constant of round `r`: the next four values of the box. */
  function ConstantRow(r: nat): Row
    requires r <= MAX_ROUNDS
  {
    Quad((4 * r) as bv8)
  }

  function Constant(r: nat): bv32
    requires r <= MAX_ROUNDS
  {
    Pack(ConstantRow(r))
  }

  lemma Boxes0()
    ensures Quad(0x00) == Row(0xba, 0x54, 0x2f, 0x74)
    ensures Quad(0x04) == Row(0x53, 0xd3, 0xd2, 0x4d)
  {
  }

  lemma Boxes2()
    ensures Quad(0x08) == Row(0x50, 0xac, 0x8d, 0xbf)
    ensures Quad(0x0c) == Row(0x70, 0x52, 0x9a, 0x4c)
  {
  }

  lemma Boxes4()
    ensures Quad(0x10) == Row(0xea, 0xd5, 0x97, 0xd1)
    ensures Quad(0x14) == Row(0x33, 0x51, 0x5b, 0xa6)
  {
  }

  lemma Boxes6()
    ensures Quad(0x18) == Row(0xde, 0x48, 0xa8, 0x99)
    ensures Quad(0x1c) == Row(0xdb, 0x32, 0xb7, 0xfc)
  {
  }

  lemma Boxes8()
    ensures Quad(0x20) == Row(0xe3, 0x9e, 0x91, 0x9b)
    ensures Quad(0x24) == Row(0xe2, 0xbb, 0x41, 0x6e)
  {
  }

  lemma Boxes10()
    ensures Quad(0x28) == Row(0xa5, 0xcb, 0x6b, 0x95)
    ensures Quad(0x2c) == Row(0xa1, 0xf3, 0xb1, 0x02)
  {
  }

  lemma Boxes12()
    ensures Quad(0x30) == Row(0xcc, 0xc4, 0x1d, 0x14)
    ensures Quad(0x34) == Row(0xc3, 0x63, 0xda, 0x5d)
  {
  }

  lemma Boxes14()
    ensures Quad(0x38) == Row(0x5f, 0xdc, 0x7d, 0xcd)
    ensures Quad(0x3c) == Row(0x7f, 0x5a, 0x6c, 0x5c)
  {
  }

  lemma Boxes16()
    ensures Quad(0x40) == Row(0xf7, 0x26, 0xff, 0xed)
    ensures Quad(0x44) == Row(0xe8, 0x9d, 0x6f, 0x8e)
  {
  }

  lemma Boxes18()
    ensures Quad(0x48) == Row(0x19, 0xa0, 0xf0, 0x89)
  {
  }

  lemma Constants0(r: nat)
    requires 0 <= r <= 1
    ensures RC[r] == Constant(r)
  {
    hide Quad;
    Boxes0();
    if r == 0 {
      assert (4 * r) as bv8 == 0x00;
    } else {
      assert (4 * r) as bv8 == 0x04;
    }
  }

  lemma Constants2(r: nat)
    requires 2 <= r <= 3
    ensures RC[r] == Constant(r)
  {
    hide Quad;
    Boxes2();
    if r == 2 {
      assert (4 * r) as bv8 == 0x08;
    } else {
      assert (4 * r) as bv8 == 0x0c;
    }
  }

  lemma Constants4(r: nat)
    requires 4 <= r <= 5
    ensures RC[r] == Constant(r)
  {
    hide Quad;
    Boxes4();
    if r == 4 {
      assert (4 * r) as bv8 == 0x10;
    } else {
      assert (4 * r) as bv8 == 0x14;
    }
  }

  lemma Constants6(r: nat)
    requires 6 <= r <= 7
    ensures RC[r] == Constant(r)
  {
    hide Quad;
    Boxes6();
    if r == 6 {
      assert (4 * r) as bv8 == 0x18;
    } else {
      assert (4 * r) as bv8 == 0x1c;
    }
  }

  lemma Constants8(r: nat)
    requires 8 <= r <= 9
    ensures RC[r] == Constant(r)
  {
    hide Quad;
    Boxes8();
    if r == 8 {
      assert (4 * r) as bv8 == 0x20;
    } else {
      assert (4 * r) as bv8 == 0x24;
    }
  }

  lemma Constants10(r: nat)
    requires 10 <= r <= 11
    ensures RC[r] == Constant(r)
  {
    hide Quad;
    Boxes10();
    if r == 10 {
      assert (4 * r) as bv8 == 0x28;
    } else {
      assert (4 * r) as bv8 == 0x2c;
    }
  }

  lemma Constants12(r: nat)
    requires 12 <= r <= 13
    ensures RC[r] == Constant(r)
  {
    hide Quad;
    Boxes12();
    if r == 12 {
      assert (4 * r) as bv8 == 0x30;
    } else {
      assert (4 * r) as bv8 == 0x34;
    }
  }

  lemma Constants14(r: nat)
    requires 14 <= r <= 15
    ensures RC[r] == Constant(r)
  {
    hide Quad;
    Boxes14();
    if r == 14 {
      assert (4 * r) as bv8 == 0x38;
    } else {
      assert (4 * r) as bv8 == 0x3c;
    }
  }

  lemma Constants16(r: nat)
    requires 16 <= r <= 17
    ensures RC[r] == Constant(r)
  {
    hide Quad;
    Boxes16();
    if r == 16 {
      assert (4 * r) as bv8 == 0x40;
    } else {
      assert (4 * r) as bv8 == 0x44;
    }
  }

  lemma Constants18(r: nat)
    requires r == 18
    ensures RC[r] == Constant(r)
  {
    hide Quad;
    Boxes18();
    assert (4 * r) as bv8 == 0x48;
  }

  lemma ConstantsEnough()
    ensures |RC| == MAX_ROUNDS + 1
  {
  }

  /** The table of round constants holds them. */
  lemma ConstantIs(r: nat)
    requires r <= MAX_ROUNDS
    ensures RC[r] == Constant(r)
  {
    hide Constant;
    match r / 2
    case 0 => Constants0(r);
    case 1 => Constants2(r);
    case 2 => Constants4(r);
    case 3 => Constants6(r);
    case 4 => Constants8(r);
    case 5 => Constants10(r);
    case 6 => Constants12(r);
    case 7 => Constants14(r);
    case 8 => Constants16(r);
    case _ => Constants18(r);
  }

  /** The key state of round `r`. */
  function KeyState(key: seq<bv32>, r: nat): (k: seq<bv32>)
    requires |key| >= 4 && r <= MAX_ROUNDS
    ensures |k| == |key|
  {
    if r == 0 then key else Evolve(KeyState(key, r - 1), Constant(r - 1))
  }

  /** The key schedule: one round key more than rounds. */
  function Schedule(key: seq<bv32>, rounds: nat): (ks: seq<State>)
    requires |key| >= 4 && rounds <= MAX_ROUNDS
    ensures |ks| == rounds + 1
  {
    seq(rounds + 1, r requires 0 <= r <= rounds => RoundKey(KeyState(key, r)))
  }

  /** Four bytes, the most significant first. */
  function WordAt(bytes: seq<bv8>, i: nat): bv32
    requires 4 * i + 3 < |bytes|
  {
    Word(bytes[4 * i], bytes[4 * i + 1], bytes[4 * i + 2], bytes[4 * i + 3])
  }

  function Words(bytes: seq<bv8>): seq<bv32>
    requires |bytes| % 4 == 0
  {
    seq(|bytes| / 4, i requires 0 <= i < |bytes| / 4 => WordAt(bytes, i))
  }

  function FromBytes(block: seq<bv8>): State
    requires |block| == 16
  {
    State(WordAt(block, 0), WordAt(block, 1), WordAt(block, 2), WordAt(block, 3))
  }

  function ToBytes(s: State): (block: seq<bv8>)
    ensures |block| == 16
  {
    [B0(s.w0), B1(s.w0), B2(s.w0), B3(s.w0), B0(s.w1), B1(s.w1), B2(s.w1), B3(s.w1),
     B0(s.w2), B1(s.w2), B2(s.w2), B3(s.w2), B0(s.w3), B1(s.w3), B2(s.w3), B3(s.w3)]
  }

  lemma BytesBack(block: seq<bv8>)
    requires |block| == 16
    ensures ToBytes(FromBytes(block)) == block
  {
    hide Word, B0, B1, B2, B3;
    WordBytes(block[0], block[1], block[2], block[3]);
    WordBytes(block[4], block[5], block[6], block[7]);
    WordBytes(block[8], block[9], block[10], block[11]);
    WordBytes(block[12], block[13], block[14], block[15]);
    hide FromBytes, ToBytes;
    Sixteen(block);
  }

  lemma Sixteen(block: seq<bv8>)
    requires |block| == 16
    ensures block == [block[0], block[1], block[2], block[3], block[4], block[5], block[6], block[7],
                      block[8], block[9], block[10], block[11], block[12], block[13], block[14], block[15]]
  {
  }

  lemma StateBack(s: State)
    ensures FromBytes(ToBytes(s)) == s
  {
    hide Word, B0, B1, B2, B3;
    BytesOf(s.w0);
    BytesOf(s.w1);
    BytesOf(s.w2);
    BytesOf(s.w3);
  }

  function CryptBlock(ks: seq<State>, block: seq<bv8>): seq<bv8>
    requires |ks| >= 2 && |block| == 16
  {
    ToBytes(Crypt(ks, FromBytes(block)))
  }

  /** Decrypting what was encrypted gives the block back, for every schedule. */
  lemma BlockRoundTrip(ks: seq<State>, block: seq<bv8>)
    requires |ks| >= 2 && |block| == 16
    ensures |CryptBlock(ks, block)| == 16 && CryptBlock(Inverse(ks), CryptBlock(ks, block)) == block
  {
    hide Crypt, FromBytes, ToBytes, Inverse;
    StateBack(Crypt(ks, FromBytes(block)));
    CryptInverts(ks, FromBytes(block));
    BytesBack(block);
  }

  // ------------------------------------------------------------------- the code

  /** One column of the round key, from the last key word to the first. */
  method SelectKey(kappa: array<bv32>, n: nat) returns (k: State)
    requires 0 < n <= kappa.Length
    ensures k == RoundKey(kappa[..n])
  {
    hide Select, SelectStep, T4, B0, B1, B2, B3;
    ghost var ks := kappa[..n];
    k := State(T4(B0(kappa[n - 1])), T4(B1(kappa[n - 1])), T4(B2(kappa[n - 1])), T4(B3(kappa[n - 1])));
    var i := n - 1;
    SelectLast(ks);
    while i > 0
      invariant 0 <= i < n && k == RoundKey(ks[i..])
    {
      i := i - 1;
      SelectMore(ks, i);
      k := State(SelectStep(B0(kappa[i]), k.w0), SelectStep(B1(kappa[i]), k.w1),
                 SelectStep(B2(kappa[i]), k.w2), SelectStep(B3(kappa[i]), k.w3));
    }
    assert ks[0..] == ks;
  }

  lemma SelectLast(ks: seq<bv32>)
    requires ks != []
    ensures var n := |ks| - 1;
            RoundKey(ks[n..]) == State(T4(B0(ks[n])), T4(B1(ks[n])), T4(B2(ks[n])), T4(B3(ks[n])))
  {
    hide T4, B0, B1, B2, B3;
    assert ks[|ks| - 1..] == [ks[|ks| - 1]];
  }

  lemma SelectMore(ks: seq<bv32>, i: nat)
    requires i + 1 < |ks|
    ensures var k := RoundKey(ks[i + 1..]);
            RoundKey(ks[i..]) == State(SelectStep(B0(ks[i]), k.w0), SelectStep(B1(ks[i]), k.w1),
                                       SelectStep(B2(ks[i]), k.w2), SelectStep(B3(ks[i]), k.w3))
  {
    hide SelectStep, T4, B0, B1, B2, B3;
    var l, m := ks[i..], ks[i + 1..];
    assert Column0(l)[1..] == Column0(m) && Column0(l)[0] == B0(ks[i]);
    assert Column1(l)[1..] == Column1(m) && Column1(l)[0] == B1(ks[i]);
    assert Column2(l)[1..] == Column2(m) && Column2(l)[0] == B2(ks[i]);
    assert Column3(l)[1..] == Column3(m) && Column3(l)[0] == B3(ks[i]);
  }

  /** The words of the next key state, without the constant, in `inter`. */
  method EvolveInto(kappa: array<bv32>, inter: array<bv32>, n: nat)
    requires 4 <= n <= kappa.Length && n <= inter.Length && kappa != inter
    modifies inter
    ensures forall m :: 0 <= m < n ==> inter[m] == EvolveWord(kappa[..n], m)
  {
    hide EvolveWord, XW, T0, T1, T2, T3, B0, B1, B2, B3;
    ghost var ks := kappa[..n];
    var i := 0;
    while i < n
      invariant i <= n && forall m :: 0 <= m < i ==> inter[m] == EvolveWord(ks, m)
    {
      var j := i;
      var w := T0(B0(kappa[j]));
      j := if j == 0 then n - 1 else j - 1;
      w := XW(w, T1(B1(kappa[j])));
      j := if j == 0 then n - 1 else j - 1;
      w := XW(w, T2(B2(kappa[j])));
      j := if j == 0 then n - 1 else j - 1;
      w := XW(w, T3(B3(kappa[j])));
      EvolveWordAt(ks, i, w);
      inter[i] := w;
      i := i + 1;
    }
  }

  /** The next key state, in place, by way of `inter`. */
  method EvolveKey(kappa: array<bv32>, inter: array<bv32>, n: nat, c: bv32)
    requires 4 <= n <= kappa.Length && n <= inter.Length && kappa != inter
    modifies kappa, inter
    ensures kappa[..n] == Evolve(old(kappa[..n]), c)
  {
    hide EvolveWord, XW;
    ghost var ks := kappa[..n];
    EvolveInto(kappa, inter, n);
    kappa[0] := XW(inter[0], c);
    var i := 1;
    while i < n
      invariant 1 <= i <= n && kappa[0] == XW(EvolveWord(ks, 0), c)
      invariant forall m :: 0 <= m < n ==> inter[m] == EvolveWord(ks, m)
      invariant forall m :: 1 <= m < i ==> kappa[m] == EvolveWord(ks, m)
    {
      kappa[i] := inter[i];
      i := i + 1;
    }
  }

  lemma EvolveWordAt(ks: seq<bv32>, i: nat, w: bv32)
    requires |ks| >= 4 && i < |ks|
    requires var n := |ks|;
             w == XW(XW(XW(T0(B0(ks[i])), T1(B1(ks[Before(i, 1, n)]))), T2(B2(ks[Before(i, 2, n)]))),
                      T3(B3(ks[Before(i, 3, n)])))
    ensures w == EvolveWord(ks, i)
  {
  }

  /** anubis_ctx: the number of rounds and the two key schedules. */
  class Context {
    var rounds: nat
    const e: array<State>
    const d: array<State>

    constructor ()
      ensures fresh(e) && fresh(d) && e.Length == d.Length == MAX_ROUNDS + 1 && e != d && rounds == 0
    {
      var zero := State(0, 0, 0, 0);
      e := new State[MAX_ROUNDS + 1](_ => zero);
      d := new State[MAX_ROUNDS + 1](_ => zero);
      rounds := 0;
    }

    /** A key has been set. */
    ghost predicate Ready()
      reads this, e, d
    {
      && e.Length == d.Length == MAX_ROUNDS + 1 && e != d && 1 <= rounds <= MAX_ROUNDS
      && d[..rounds + 1] == Inverse(e[..rounds + 1])
    }

    /** anubis_setkey: keys of 16 to 40 bytes in steps of four are taken. */
    method SetKey(key: seq<bv8>) returns (ok: bool)
      requires e.Length == d.Length == MAX_ROUNDS + 1 && e != d
      modifies this, e, d
      ensures ok == (|key| in {16, 20, 24, 28, 32, 36, 40})
      ensures !ok ==> rounds == old(rounds) && e[..] == old(e[..]) && d[..] == old(d[..])
      ensures ok ==> Ready() && rounds == 8 + |key| / 4 && e[..rounds + 1] == Schedule(Words(key), rounds)
    {
      if |key| !in {16, 20, 24, 28, 32, 36, 40} {
        return false;
      }
      var n := |key| / 4;
      rounds := 8 + n;
      Forwards(key, n);
      Backwards(n);
      ok := true;
    }

    /** The encryption schedule. */
    method Forwards(key: seq<bv8>, n: nat)
      requires 4 <= n <= MAX_N && |key| == 4 * n && rounds == 8 + n && e.Length == MAX_ROUNDS + 1
      modifies e
      ensures e[..rounds + 1] == Schedule(Words(key), rounds)
    {
      hide RoundKey, Evolve, Words, Schedule, Constant, KeyState, RC;
      ConstantsEnough();
      ghost var words := Words(key);
      WordsLength(key, n);
      FirstKeyState(words);
      var kappa := new bv32[MAX_N](_ => 0);
      var inter := new bv32[MAX_N](_ => 0);
      LoadKey(key, n, kappa);
      var r := 0;
      while r <= rounds
        invariant r <= rounds + 1 && (r <= rounds ==> kappa[..n] == KeyState(words, r))
        invariant forall m :: 0 <= m < r ==> e[m] == RoundKey(KeyState(words, m))
      {
        var k := SelectKey(kappa, n);
        e[r] := k;
        if r < rounds {
          NextKeyState(words, r);
          ConstantIs(r);
          EvolveKey(kappa, inter, n, RC[r]);
        }
        r := r + 1;
      }
      ScheduleIs(words, rounds, e[..rounds + 1]);
    }

    /** The decryption schedule. */
    method Backwards(n: nat)
      requires 4 <= n <= MAX_N && rounds == 8 + n && e.Length == d.Length == MAX_ROUNDS + 1 && e != d
      modifies d
      ensures d[..rounds + 1] == Inverse(e[..rounds + 1])
    {
      hide Diffuse, TableTheta, Inverse;
      var last := rounds;
      d[0] := e[last];
      d[last] := e[0];
      var r := 1;
      while r < last
        invariant 1 <= r <= last && d[0] == e[last] && d[last] == e[0]
        invariant forall m :: 1 <= m < r ==> d[m] == Diffuse(e[last - m])
      {
        var v := e[last - r];
        DiffuseByTables(v);
        d[r] := State(TableTheta(v.w0), TableTheta(v.w1), TableTheta(v.w2), TableTheta(v.w3));
        r := r + 1;
      }
      InverseIs(e[..last + 1], d[..last + 1]);
    }

    /** anubis_crypt: the block under the round keys `ks`. */
    method CryptWith(ks: array<State>, src: seq<bv8>) returns (dst: seq<bv8>)
      requires |src| == 16 && 1 <= rounds && rounds < ks.Length
      ensures dst == CryptBlock(ks[..rounds + 1], src)
    {
      hide Round, LastRound, AddKey, FromBytes, ToBytes;
      ghost var keys := ks[..rounds + 1];
      var state := AddKey(FromBytes(src), ks[0]);
      var r := 1;
      while r < rounds
        invariant 1 <= r <= rounds && state == Rounds(keys, FromBytes(src), r - 1)
      {
        state := Round(state, ks[r]);
        r := r + 1;
      }
      state := LastRound(state, ks[rounds]);
      dst := ToBytes(state);
    }

    method Encrypt(src: seq<bv8>) returns (dst: seq<bv8>)
      requires Ready() && |src| == 16
      ensures dst == CryptBlock(e[..rounds + 1], src)
    {
      dst := CryptWith(e, src);
    }

    /** Whatever Encrypt has returned under the same key, Decrypt takes back. */
    method Decrypt(src: seq<bv8>) returns (dst: seq<bv8>)
      requires Ready() && |src| == 16
      ensures dst == CryptBlock(d[..rounds + 1], src)
      ensures forall block :: |block| == 16 && src == CryptBlock(e[..rounds + 1], block) ==> dst == block
    {
      hide CryptBlock, Inverse;
      dst := CryptWith(d, src);
      ghost var ks := e[..rounds + 1];
      forall block | |block| == 16 && src == CryptBlock(ks, block)
        ensures dst == block
      {
        BlockRoundTrip(ks, block);
      }
    }
  }

  /** The key bytes as words. */
  method LoadKey(key: seq<bv8>, n: nat, kappa: array<bv32>)
    requires |key| == 4 * n && n <= kappa.Length
    modifies kappa
    ensures kappa[..n] == Words(key)
  {
    hide WordAt;
    var i := 0;
    while i < n
      invariant i <= n && forall m :: 0 <= m < i ==> kappa[m] == WordAt(key, m)
    {
      kappa[i] := WordAt(key, i);
      i := i + 1;
    }
  }

  lemma WordsLength(key: seq<bv8>, n: nat)
    requires |key| == 4 * n
    ensures |Words(key)| == n
  {
  }

  lemma FirstKeyState(words: seq<bv32>)
    requires |words| >= 4
    ensures KeyState(words, 0) == words
  {
  }

  lemma NextKeyState(words: seq<bv32>, r: nat)
    requires |words| >= 4 && r < MAX_ROUNDS
    ensures KeyState(words, r + 1) == Evolve(KeyState(words, r), Constant(r))
  {
  }

  lemma ScheduleIs(words: seq<bv32>, rounds: nat, ks: seq<State>)
    requires |words| >= 4 && rounds <= MAX_ROUNDS && |ks| == rounds + 1
    requires forall r :: 0 <= r < |ks| ==> ks[r] == RoundKey(KeyState(words, r))
    ensures ks == Schedule(words, rounds)
  {
    hide RoundKey, KeyState;
  }

  lemma InverseIs(ks: seq<State>, ds: seq<State>)
    requires |ks| >= 2 && |ds| == |ks| && ds[0] == ks[|ks| - 1] && ds[|ks| - 1] == ks[0]
    requires forall r :: 0 < r < |ks| - 1 ==> ds[r] == Diffuse(ks[|ks| - 1 - r])
    ensures ds == Inverse(ks)
  {
    hide Diffuse;
  }

  /** The diffusion as the key schedule computes it: the substitution built into
      the tables is undone first. */
  function TableTheta(v: bv32): bv32 {
    XW(XW(XW(T0(B3(T4(B0(v)))), T1(B3(T4(B1(v))))), T2(B3(T4(B2(v))))), T3(B3(T4(B3(v)))))
  }

  lemma BoxByTable(x: bv8)
    ensures B3(T4(x)) == S(x)
  {
    hide T0, T1, T2, T3, T4, T5, S, M2, M6, M8, Theta, B0, B1, B2, B3;
    TableRows(x);
  }

  lemma TableThetaIs(v: bv32)
    ensures TableTheta(v) == ThetaWord(v)
  {
    hide T0, T1, T2, T3, T4, S, Theta, Xor, Unpack, XW, Pack, B0, B1, B2, B3;
    var a, b, c, d := B0(v), B1(v), B2(v), B3(v);
    BoxByTable(a);
    BoxByTable(b);
    BoxByTable(c);
    BoxByTable(d);
    TableRows(S(a));
    TableRows(S(b));
    TableRows(S(c));
    TableRows(S(d));
    SInvolution(a);
    SInvolution(b);
    SInvolution(c);
    SInvolution(d);
    UnpackXor(T0(S(a)), T1(S(b)));
    UnpackXor(XW(T0(S(a)), T1(S(b))), T2(S(c)));
    UnpackXor(XW(XW(T0(S(a)), T1(S(b))), T2(S(c))), T3(S(d)));
    ThetaSum(a, b, c, d);
    BytesAre(v);
    UnpackPack(Theta(Unpack(v)));
    SameRows(TableTheta(v), ThetaWord(v));
  }

  lemma DiffuseByTables(s: State)
    ensures State(TableTheta(s.w0), TableTheta(s.w1), TableTheta(s.w2), TableTheta(s.w3)) == Diffuse(s)
  {
    hide TableTheta, ThetaWord;
    TableThetaIs(s.w0);
    TableThetaIs(s.w1);
    TableThetaIs(s.w2);
    TableThetaIs(s.w3);
  }
}

/** Anubis as its designers define it: on matrices of bytes, with the substitution
    box, the diffusion matrix and the key selection written out, without tables or
    words. The routines of crypto/anubis.c compute it. */
module AnubisCipher {
  import opened Anubis

  /** A block: four rows of four bytes. */
  datatype Block = Block(r0: Row, r1: Row, r2: Row, r3: Row)

  // ------------------------------------------------------------- the definition

  /** The substitution of every byte, and the transposition. */
  function Turned(m: Block): Block {
    Block(Row(S(m.r0.a), S(m.r1.a), S(m.r2.a), S(m.r3.a)), Row(S(m.r0.b), S(m.r1.b), S(m.r2.b), S(m.r3.b)),
          Row(S(m.r0.c), S(m.r1.c), S(m.r2.c), S(m.r3.c)), Row(S(m.r0.d), S(m.r1.d), S(m.r2.d), S(m.r3.d)))
  }

  function Mixed(m: Block): Block {
    Block(Theta(m.r0), Theta(m.r1), Theta(m.r2), Theta(m.r3))
  }

  function Plus(m: Block, k: Block): Block {
    Block(Xor(m.r0, k.r0), Xor(m.r1, k.r1), Xor(m.r2, k.r2), Xor(m.r3, k.r3))
  }

  /** The key state after one more round: every byte is substituted, the columns
      are turned by 0, 1, 2 and 3 places, the rows are diffused, and the constant
      of the round is added to the first. */
  function Evolved(k: seq<Row>, r: nat): (k': seq<Row>)
    requires |k| >= 4 && r <= MAX_ROUNDS
    ensures |k'| == |k|
  {
    var n := |k|;
    seq(n, i requires 0 <= i < n =>
      var row := Theta(Row(S(k[i].a), S(k[Before(i, 1, n)].b), S(k[Before(i, 2, n)].c), S(k[Before(i, 3, n)].d)));
      if i == 0 then Xor(row, ConstantRow(r)) else row)
  }

  function KeyRows(key: seq<bv8>, r: nat): (k: seq<Row>)
    requires |key| >= 16 && |key| % 4 == 0 && r <= MAX_ROUNDS
    ensures |k| == |key| / 4
  {
    if r == 0 then
      seq(|key| / 4, i requires 0 <= i < |key| / 4 => Row(key[4 * i], key[4 * i + 1], key[4 * i + 2], key[4 * i + 3]))
    else Evolved(KeyRows(key, r - 1), r - 1)
  }

  /** One row of a round key, from one column of the key state. */
  function Sums(xs: seq<bv8>): Row {
    Row(Weighted(0, xs), Weighted(1, xs), Weighted(2, xs), Weighted(3, xs))
  }

  function Column(k: seq<Row>, byte: Row -> bv8): seq<bv8> {
    seq(|k|, i requires 0 <= i < |k| => byte(k[i]))
  }

  /** The round key: the columns of the key state times the selection matrix. */
  function KeyOf(k: seq<Row>): Block {
    Block(Sums(Column(k, (r: Row) => r.a)), Sums(Column(k, (r: Row) => r.b)),
          Sums(Column(k, (r: Row) => r.c)), Sums(Column(k, (r: Row) => r.d)))
  }

  function NumberOfRounds(key: seq<bv8>): nat {
    8 + |key| / 4
  }

  predicate KeyOk(key: seq<bv8>) {
    |key| in {16, 20, 24, 28, 32, 36, 40}
  }

  /** The block after round `r`. */
  function After(key: seq<bv8>, m: Block, r: nat): Block
    requires KeyOk(key) && r <= NumberOfRounds(key)
  {
    var k := KeyOf(KeyRows(key, r));
    if r == 0 then Plus(m, k)
    else
      var t := Turned(After(key, m, r - 1));
      Plus(if r == NumberOfRounds(key) then t else Mixed(t), k)
  }

  function Rows(block: seq<bv8>): Block
    requires |block| == 16
  {
    Block(Row(block[0], block[1], block[2], block[3]), Row(block[4], block[5], block[6], block[7]),
          Row(block[8], block[9], block[10], block[11]), Row(block[12], block[13], block[14], block[15]))
  }

  function Flat(m: Block): seq<bv8> {
    [m.r0.a, m.r0.b, m.r0.c, m.r0.d, m.r1.a, m.r1.b, m.r1.c, m.r1.d,
     m.r2.a, m.r2.b, m.r2.c, m.r2.d, m.r3.a, m.r3.b, m.r3.c, m.r3.d]
  }

  function Enciphered(key: seq<bv8>, block: seq<bv8>): seq<bv8>
    requires KeyOk(key) && |block| == 16
  {
    Flat(After(key, Rows(block), NumberOfRounds(key)))
  }

  // ------------------------------------------------------------------ the rounds

  /** A state of words as the matrix it stands for. */
  function Rep(s: State): Block {
    Block(Unpack(s.w0), Unpack(s.w1), Unpack(s.w2), Unpack(s.w3))
  }

  lemma RepPlus(s: State, k: State)
    ensures Rep(AddKey(s, k)) == Plus(Rep(s), Rep(k))
  {
    hide Unpack, XW, Xor;
    UnpackXor(s.w0, k.w0);
    UnpackXor(s.w1, k.w1);
    UnpackXor(s.w2, k.w2);
    UnpackXor(s.w3, k.w3);
  }

  lemma RepMixed(s: State)
    ensures Rep(Diffuse(s)) == Mixed(Rep(s))
  {
    hide Unpack, Pack, Theta;
    UnpackPack(Theta(Unpack(s.w0)));
    UnpackPack(Theta(Unpack(s.w1)));
    UnpackPack(Theta(Unpack(s.w2)));
    UnpackPack(Theta(Unpack(s.w3)));
  }

  lemma RepTurned(s: State)
    ensures Rep(SubTranspose(s)) == Turned(Rep(s))
  {
    hide B0, B1, B2, B3, S, Word;
    WordRow(S(B0(s.w0)), S(B0(s.w1)), S(B0(s.w2)), S(B0(s.w3)));
    WordRow(S(B1(s.w0)), S(B1(s.w1)), S(B1(s.w2)), S(B1(s.w3)));
    WordRow(S(B2(s.w0)), S(B2(s.w1)), S(B2(s.w2)), S(B2(s.w3)));
    WordRow(S(B3(s.w0)), S(B3(s.w1)), S(B3(s.w2)), S(B3(s.w3)));
  }

  lemma WordRow(a: bv8, b: bv8, c: bv8, d: bv8)
    ensures Unpack(Word(a, b, c, d)) == Row(a, b, c, d)
  {
    UnpackPack(Row(a, b, c, d));
    hide Unpack, Word;
  }

  // ------------------------------------------------------------ the key schedule

  /** Words as the rows they stand for. */
  function RowsOf(ws: seq<bv32>): (k: seq<Row>)
    ensures |k| == |ws|
  {
    seq(|ws|, i requires 0 <= i < |ws| => Unpack(ws[i]))
  }

  lemma EvolvedRow(ws: seq<bv32>, r: nat, i: nat)
    requires |ws| >= 4 && r <= MAX_ROUNDS && i < |ws|
    ensures Unpack(Evolve(ws, Constant(r))[i]) == Evolved(RowsOf(ws), r)[i]
  {
    hide Unpack, Xor, XW, S, Theta, EvolveWord, ConstantRow, Pack, B0, B1, B2, B3;
    EvolveWordIs(ws, i);
    var n := |ws|;
    BytesAre(ws[i]);
    BytesAre(ws[Before(i, 1, n)]);
    BytesAre(ws[Before(i, 2, n)]);
    BytesAre(ws[Before(i, 3, n)]);
    UnpackXor(EvolveWord(ws, i), Constant(r));
    UnpackPack(ConstantRow(r));
  }

  lemma RepEvolved(ws: seq<bv32>, r: nat)
    requires |ws| >= 4 && r <= MAX_ROUNDS
    ensures RowsOf(Evolve(ws, Constant(r))) == Evolved(RowsOf(ws), r)
  {
    hide Evolved, Unpack, Constant, EvolveWord;
    var a, b := RowsOf(Evolve(ws, Constant(r))), Evolved(RowsOf(ws), r);
    assert |a| == |b| == |ws|;
    hide Evolve;
    forall i | 0 <= i < |ws|
      ensures a[i] == b[i]
    {
      EvolvedRow(ws, r, i);
    }
  }

  lemma RepWords(key: seq<bv8>)
    requires |key| >= 16 && |key| % 4 == 0
    ensures RowsOf(Words(key)) == KeyRows(key, 0)
  {
    hide Unpack, Word;
    var a, b := RowsOf(Words(key)), KeyRows(key, 0);
    forall i | 0 <= i < |key| / 4
      ensures a[i] == b[i]
    {
      WordRow(key[4 * i], key[4 * i + 1], key[4 * i + 2], key[4 * i + 3]);
    }
  }

  /** The key states are those of the definition. */
  lemma {:induction false} KeyStateIs(key: seq<bv8>, r: nat)
    requires |key| >= 16 && |key| % 4 == 0 && r <= MAX_ROUNDS
    ensures RowsOf(KeyState(Words(key), r)) == KeyRows(key, r)
  {
    hide Evolve, Evolved, Constant, RowsOf;
    if r == 0 {
      RepWords(key);
    } else {
      KeyStateIs(key, r - 1);
      RepEvolved(KeyState(Words(key), r - 1), r - 1);
    }
  }

  lemma Columns(ws: seq<bv32>)
    ensures Column(RowsOf(ws), (r: Row) => r.a) == Column0(ws) && Column(RowsOf(ws), (r: Row) => r.b) == Column1(ws)
    ensures Column(RowsOf(ws), (r: Row) => r.c) == Column2(ws) && Column(RowsOf(ws), (r: Row) => r.d) == Column3(ws)
  {
    hide B0, B1, B2, B3;
  }

  lemma RoundKeyIs(ws: seq<bv32>)
    requires ws != []
    ensures Rep(RoundKey(ws)) == KeyOf(RowsOf(ws))
  {
    hide Select, Weighted, Unpack, Column, Column0, Column1, Column2, Column3, RowsOf;
    Columns(ws);
    ColumnsThere(ws);
    SelectIs(Column0(ws));
    SelectIs(Column1(ws));
    SelectIs(Column2(ws));
    SelectIs(Column3(ws));
  }

  lemma ColumnsThere(ws: seq<bv32>)
    requires ws != []
    ensures Column0(ws) != [] && Column1(ws) != [] && Column2(ws) != [] && Column3(ws) != []
  {
    assert |Column0(ws)| == |Column1(ws)| == |Column2(ws)| == |Column3(ws)| == |ws|;
  }

  /** Every round key is the one of the definition. */
  lemma ScheduleIs(key: seq<bv8>, r: nat)
    requires KeyOk(key) && r <= NumberOfRounds(key)
    ensures Rep(Schedule(Words(key), NumberOfRounds(key))[r]) == KeyOf(KeyRows(key, r))
  {
    hide KeyState, RoundKey, KeyRows, KeyOf, Rep, RowsOf;
    KeyStateIs(key, r);
    RoundKeyIs(KeyState(Words(key), r));
  }

  // ------------------------------------------------------------------ the cipher

  lemma {:induction false} RoundsAre(key: seq<bv8>, s: State, r: nat)
    requires KeyOk(key) && r < NumberOfRounds(key)
    ensures Rep(Rounds(Schedule(Words(key), NumberOfRounds(key)), s, r)) == After(key, Rep(s), r)
  {
    hide Schedule, Words, KeyRows, KeyOf, Rep, Round, AddKey, Diffuse, SubTranspose, Turned, Mixed, Plus;
    WordsLength(key, |key| / 4);
    var ks := Schedule(Words(key), NumberOfRounds(key));
    ScheduleIs(key, r);
    if r == 0 {
      RepPlus(s, ks[0]);
    } else {
      var x := Rounds(ks, s, r - 1);
      RoundsAre(key, s, r - 1);
      RoundIs(x, ks[r]);
      RepTurned(x);
      RepMixed(SubTranspose(x));
      RepPlus(Diffuse(SubTranspose(x)), ks[r]);
    }
  }

  lemma CryptIs(key: seq<bv8>, s: State)
    requires KeyOk(key)
    ensures Rep(Crypt(Schedule(Words(key), NumberOfRounds(key)), s)) == After(key, Rep(s), NumberOfRounds(key))
  {
    hide Schedule, Words, KeyRows, KeyOf, Rep, Rounds, LastRound, AddKey, SubTranspose, Turned, Mixed, Plus;
    var n := NumberOfRounds(key);
    WordsLength(key, |key| / 4);
    var ks := Schedule(Words(key), n);
    var x := Rounds(ks, s, n - 1);
    ScheduleIs(key, n);
    RoundsAre(key, s, n - 1);
    LastRoundIs(x, ks[n]);
    RepTurned(x);
    RepPlus(SubTranspose(x), ks[n]);
  }

  lemma RepBytes(block: seq<bv8>)
    requires |block| == 16
    ensures Rep(FromBytes(block)) == Rows(block)
  {
    hide Unpack, Word;
    WordRow(block[0], block[1], block[2], block[3]);
    WordRow(block[4], block[5], block[6], block[7]);
    WordRow(block[8], block[9], block[10], block[11]);
    WordRow(block[12], block[13], block[14], block[15]);
  }

  lemma RepFlat(s: State)
    ensures ToBytes(s) == Flat(Rep(s))
  {
    hide B0, B1, B2, B3;
  }

  /** The routines of the kernel compute the cipher, for every key and block. */
  lemma CipherIs(key: seq<bv8>, block: seq<bv8>)
    requires KeyOk(key) && |block| == 16
    ensures CryptBlock(Schedule(Words(key), NumberOfRounds(key)), block) == Enciphered(key, block)
  {
    hide Schedule, Words, Crypt, FromBytes, ToBytes, Rep, Rows, Flat, After;
    WordsLength(key, |key| / 4);
    CryptIs(key, FromBytes(block));
    RepBytes(block);
    RepFlat(Crypt(Schedule(Words(key), NumberOfRounds(key)), FromBytes(block)));
  }
}

/** Names of algorithm instances, such as authenc(hmac(sha1),cbc(aes)): the parser
    of crypto/algboss.c and the printer of crypto/algapi.c. */
module TemplateName {
  import opened Lists

  const MAX_ATTRS := 32
  const MAX_ALG_NAME := 64

  predicate Digit(c: char) {
    '0' <= c <= '9'
  }

  /** isalnum, which knows the letters of Latin-1, or one of the two signs. */
  predicate IdentChar(c: char) {
    || Digit(c) || 'A' <= c <= 'Z' || 'a' <= c <= 'z' || c == '-' || c == '_'
    || ('\U{00C0}' <= c <= '\U{00FF}' && c != '\U{00D7}' && c != '\U{00F7}')
  }

  predicate AllIdent(s: string) {
    forall i :: 0 <= i < |s| ==> IdentChar(s[i])
  }

  predicate AllDigits(s: string) {
    forall i :: 0 <= i < |s| ==> Digit(s[i])
  }

  // ----------------------------------------------------------------- the grammar

  /** Reading `s` from nesting depth `d` never closes more than is open, and ends
      with everything closed. */
  predicate Nests(s: string, d: nat) {
    if s == [] then d == 0
    else if s[0] == '(' then Nests(s[1..], d + 1)
    else if s[0] == ')' then d > 0 && Nests(s[1..], d - 1)
    else s[0] != '\0' && Nests(s[1..], d)
  }

  /** An argument: an identifier, or any identifier with a nested list. */
  ghost predicate Item(x: string) {
    x != [] && (AllIdent(x) || exists id, inner :: x == Nested(id, inner) && AllIdent(id) && Nests(inner, 0))
  }

  function Nested(id: string, inner: string): string {
    id + ("(" + (inner + ")"))
  }

  function Join(xs: seq<string>): string {
    if xs == [] then "" else if |xs| == 1 then xs[0] else xs[0] + "," + Join(xs[1..])
  }

  ghost predicate Items(xs: seq<string>) {
    xs != [] && forall i :: 0 <= i < |xs| ==> Item(xs[i])
  }

  /** A template name with its arguments as text. */
  datatype Name = Name(template: string, args: seq<string>)

  /** What the parser takes: a name, its arguments in parentheses, and anything
      behind them. */
  ghost predicate Written(s: string, n: Name, rest: string) {
    && s == n.template + ("(" + (Join(n.args) + (")" + rest)))
    && n.template != [] && AllIdent(n.template) && Items(n.args) && |n.args| < MAX_ATTRS
  }

  // ------------------------------------------------------------------ the parser

  /** How many characters from the start are identifier characters. */
  function IdentLen(r: string): (n: nat)
    ensures n <= |r| && AllIdent(r[..n]) && (n < |r| ==> !IdentChar(r[n]))
  {
    if r == [] || !IdentChar(r[0]) then 0 else 1 + IdentLen(r[1..])
  }

  /** Where the parenthesis that opened before `r` closes; the string may end first. */
  function CloseLen(r: string, d: nat): (n: Option<nat>)
    ensures n.Some? ==> n.value < |r|
  {
    if r == [] || r[0] == '\0' then None
    else
      var rest := if r[0] == '(' then CloseLen(r[1..], d + 1)
                  else if r[0] == ')' then (if d == 0 then None else CloseLen(r[1..], d - 1))
                  else CloseLen(r[1..], d);
      if r[0] == ')' && d == 0 then Some(0) else if rest.Some? then Some(rest.value + 1) else None
  }

  /** The length of the argument at the start. */
  function ItemLen(r: string): (n: Option<nat>)
    ensures n.Some? ==> 0 < n.value <= |r|
  {
    var k := IdentLen(r);
    if k < |r| && r[k] == '(' then
      var c := CloseLen(r[k + 1..], 0);
      if c.Some? then Some(k + c.value + 2) else None
    else if k > 0 then Some(k) else None
  }

  /** The arguments from here to the closing parenthesis, when `i` came before. */
  function ParseItems(r: string, i: nat): Option<seq<string>>
    decreases |r|
  {
    var n := ItemLen(r);
    if n.None? || i + 1 >= MAX_ATTRS || n.value == |r| then None
    else if r[n.value] == ')' then Some([r[..n.value]])
    else if r[n.value] == ',' then
      var rest := ParseItems(r[n.value + 1..], i + 1);
      if rest.Some? then Some([r[..n.value]] + rest.value) else None
    else None
  }

  function Parse(s: string): Option<Name> {
    var k := IdentLen(s);
    if k == 0 || k == |s| || s[k] != '(' then None
    else
      var args := ParseItems(s[k + 1..], 0);
      if args.Some? then Some(Name(s[..k], args.value)) else None
  }

  // ---------------------------------------------------------- parsing is inverse

  lemma {:induction false} IdentLenOf(x: string, b: string)
    requires AllIdent(x) && (b == [] || !IdentChar(b[0]))
    ensures IdentLen(x + b) == |x|
  {
    if x == [] {
      assert x + b == b;
    } else {
      assert (x + b)[1..] == x[1..] + b && (x + b)[0] == x[0];
      IdentLenOf(x[1..], b);
    }
  }

  lemma {:induction false} CloseLenOf(x: string, d: nat, b: string)
    requires Nests(x, d)
    ensures CloseLen(x + (")" + b), d) == Some(|x|)
  {
    var r := x + (")" + b);
    if x == [] {
      assert r == ")" + b;
    } else {
      assert r[0] == x[0] && r[1..] == x[1..] + (")" + b);
      CloseLenOf(x[1..], if x[0] == '(' then d + 1 else if x[0] == ')' then d - 1 else d, b);
    }
  }

  lemma {:induction false} CloseLenNests(r: string, d: nat)
    requires CloseLen(r, d).Some?
    ensures var n := CloseLen(r, d).value; r[n] == ')' && Nests(r[..n], d)
  {
    var n := CloseLen(r, d).value;
    if n > 0 {
      var d' := if r[0] == '(' then d + 1 else if r[0] == ')' then d - 1 else d;
      CloseLenNests(r[1..], d');
      assert r[..n][1..] == r[1..][..n - 1];
    }
  }

  lemma NestedJoin(id: string, inner: string, b: string)
    ensures Nested(id, inner) + b == id + ("(" + (inner + (")" + b)))
  {
    assert (inner + ")") + b == inner + (")" + b);
    assert ("(" + (inner + ")")) + b == "(" + ((inner + ")") + b);
  }

  lemma NestedLen(id: string, inner: string, b: string)
    requires AllIdent(id) && Nests(inner, 0)
    ensures ItemLen(Nested(id, inner) + b) == Some(|Nested(id, inner)|)
  {
    var close := inner + (")" + b);
    var r := id + ("(" + close);
    NestedJoin(id, inner, b);
    IdentLenOf(id, "(" + close);
    assert r[|id|] == '(' && r[|id| + 1..] == close;
    CloseLenOf(inner, 0, b);
    hide IdentLen, CloseLen, Nests, AllIdent;
  }

  lemma ItemLenOf(x: string, b: string)
    requires Item(x) && (b == [] || (!IdentChar(b[0]) && b[0] != '('))
    ensures ItemLen(x + b) == Some(|x|)
  {
    if AllIdent(x) {
      IdentLenOf(x, b);
      hide IdentLen, CloseLen, Nested, Nests;
    } else {
      var id, inner :| x == Nested(id, inner) && AllIdent(id) && Nests(inner, 0);
      hide *;
      NestedLen(id, inner, b);
    }
  }

  lemma NestedPart(r: string, k: nat, n: nat)
    requires k < |r| && r[k] == '(' && k + 2 <= n <= |r| && r[n - 1] == ')'
    ensures r[..n] == Nested(r[..k], r[k + 1..n - 1])
  {
    assert r[k + 1..n] == r[k + 1..n - 1] + ")";
    assert r[k..n] == "(" + r[k + 1..n];
    assert r[..n] == r[..k] + r[k..n];
  }

  lemma ItemLenItem(r: string)
    requires ItemLen(r).Some?
    ensures Item(r[..ItemLen(r).value])
  {
    var k, n := IdentLen(r), ItemLen(r).value;
    if k < |r| && r[k] == '(' {
      CloseLenNests(r[k + 1..], 0);
      hide CloseLen, IdentLen, Nested, Nests;
      assert r[k + 1..][..n - k - 2] == r[k + 1..n - 1];
      assert r[k + 1..][n - k - 2] == r[n - 1];
      NestedPart(r, k, n);
    }
  }

  lemma LastItem(x: string, rest: string, i: nat)
    requires Item(x) && i + 1 < MAX_ATTRS
    ensures ParseItems(x + (")" + rest), i) == Some([x])
  {
    hide ItemLen, Item;
    ItemLenOf(x, ")" + rest);
    var r := x + (")" + rest);
    assert r[|x|] == ')' && r[..|x|] == x;
  }

  lemma NextItem(x: string, tail: string, i: nat, ys: seq<string>)
    requires Item(x) && i + 1 < MAX_ATTRS && ParseItems(tail, i + 1) == Some(ys)
    ensures ParseItems(x + ("," + tail), i) == Some([x] + ys)
  {
    hide ItemLen, Item;
    ItemLenOf(x, "," + tail);
    var r := x + ("," + tail);
    assert r[|x|] == ',' && r[..|x|] == x && r[|x| + 1..] == tail;
  }

  lemma JoinMore(x: string, xs: seq<string>, b: string)
    requires xs != []
    ensures Join([x] + xs) + b == x + ("," + (Join(xs) + b))
  {
    assert ([x] + xs)[1..] == xs;
    assert (x + "," + Join(xs)) + b == x + ("," + (Join(xs) + b));
  }

  lemma {:induction false} ParseItemsOf(xs: seq<string>, rest: string, i: nat)
    requires Items(xs) && i + |xs| < MAX_ATTRS
    ensures ParseItems(Join(xs) + (")" + rest), i) == Some(xs)
    decreases |xs|
  {
    hide ParseItems, Item;
    var x, ys := xs[0], xs[1..];
    assert [x] + ys == xs;
    if |xs| == 1 {
      assert xs == [x];
      LastItem(x, rest, i);
    } else {
      ParseItemsOf(ys, rest, i + 1);
      hide Join;
      NextItem(x, Join(ys) + (")" + rest), i, ys);
      JoinMore(x, ys, ")" + rest);
    }
  }

  lemma JoinOne(x: string)
    ensures Join([x]) == x
  {
  }

  lemma SplitAt(r: string, n: nat)
    requires n < |r|
    ensures r == r[..n] + ([r[n]] + r[n + 1..])
  {
  }

  /** The first argument and what the parser does behind it. */
  lemma ParseItemsParts(r: string, i: nat) returns (x: string, tail: string)
    requires ParseItems(r, i).Some?
    ensures Item(x) && i + 1 < MAX_ATTRS && |tail| < |r|
    ensures || (r == x + (")" + tail) && ParseItems(r, i).value == [x])
            || (r == x + ("," + tail) && ParseItems(tail, i + 1).Some?
                && ParseItems(r, i).value == [x] + ParseItems(tail, i + 1).value)
  {
    hide ItemLen, Item;
    var n := ItemLen(r).value;
    x, tail := r[..n], r[n + 1..];
    ItemLenItem(r);
    SplitAt(r, n);
  }

  lemma {:induction false} ParseItemsSound(r: string, i: nat) returns (rest: string)
    requires ParseItems(r, i).Some?
    ensures var xs := ParseItems(r, i).value; Items(xs) && i + |xs| < MAX_ATTRS && r == Join(xs) + (")" + rest)
    decreases |r|
  {
    hide Join, ParseItems, Item;
    var x, tail := ParseItemsParts(r, i);
    if r == x + (")" + tail) && ParseItems(r, i).value == [x] {
      rest := tail;
      JoinOne(x);
    } else {
      rest := ParseItemsSound(tail, i + 1);
      JoinMore(x, ParseItems(tail, i + 1).value, ")" + rest);
    }
  }

  /** The parser finds exactly the template and the argument texts, and fails on
      everything that is not written that way. */
  lemma ParseExactly(s: string, n: Name)
    ensures Parse(s) == Some(n) <==> exists rest :: Written(s, n, rest)
  {
    hide IdentLen, ParseItems, Items, Join;
    if Parse(s) == Some(n) {
      var k := IdentLen(s);
      var rest := ParseItemsSound(s[k + 1..], 0);
      SplitAt(s, k);
      assert Written(s, n, rest);
    }
    if rest :| Written(s, n, rest) {
      ParseComplete(s, n, rest);
    }
  }

  lemma ParseComplete(s: string, n: Name, rest: string)
    requires Written(s, n, rest)
    ensures Parse(s) == Some(n)
  {
    hide Join, ParseItems, IdentLen, Items;
    var r := Join(n.args) + (")" + rest);
    IdentLenOf(n.template, "(" + r);
    ParseItemsOf(n.args, rest, 0);
    assert s[|n.template|] == '(' && s[..|n.template|] == n.template && s[|n.template| + 1..] == r;
  }

  // ------------------------------------------------------------------- the terms

  /** An algorithm: a plain name, or a template applied to algorithms. A number
      is a name of digits. */
  datatype Term = Leaf(name: string) | Node(name: string, args: seq<Term>)

  function Print(t: Term): string {
    match t
    case Leaf(name) => name
    case Node(name, args) => Nested(name, Join(Prints(args)))
  }

  function Prints(ts: seq<Term>): (r: seq<string>)
    ensures |r| == |ts| && forall i :: 0 <= i < |r| ==> r[i] == Print(ts[i])
  {
    if ts == [] then [] else [Print(ts[0])] + Prints(ts[1..])
  }

  /** Identifiers are not empty and there are arguments, but not too many. */
  predicate WellFormed(t: Term) {
    && t.name != [] && AllIdent(t.name)
    && (t.Node? ==> 0 < |t.args| < MAX_ATTRS && forall i :: 0 <= i < |t.args| ==> WellFormed(t.args[i]))
  }

  lemma {:induction false} NestsIdent(x: string)
    requires AllIdent(x)
    ensures Nests(x, 0)
  {
    if x != [] {
      NestsIdent(x[1..]);
    }
  }

  lemma {:induction false} NestsThen(x: string, d: nat, y: string, e: nat)
    requires Nests(x, d) && Nests(y, e)
    ensures Nests(x + y, d + e)
  {
    if x == [] {
      assert x + y == y;
    } else {
      assert (x + y)[1..] == x[1..] + y && (x + y)[0] == x[0];
      NestsThen(x[1..], if x[0] == '(' then d + 1 else if x[0] == ')' then d - 1 else d, y, e);
    }
  }

  lemma NestsNested(id: string, inner: string)
    requires AllIdent(id) && Nests(inner, 0)
    ensures Nests(Nested(id, inner), 0)
  {
    NestsIdent(id);
    assert Nests(")", 1);
    NestsThen(inner, 0, ")", 1);
    var tail := "(" + (inner + ")");
    assert tail[0] == '(' && tail[1..] == inner + ")";
    NestsThen(id, 0, tail, 0);
  }

  lemma NestsItem(x: string)
    requires Item(x)
    ensures Nests(x, 0)
  {
    if AllIdent(x) {
      NestsIdent(x);
    } else {
      var id, inner :| x == Nested(id, inner) && AllIdent(id) && Nests(inner, 0);
      NestsNested(id, inner);
    }
  }

  lemma {:induction false} NestsJoin(xs: seq<string>)
    requires Items(xs)
    ensures Nests(Join(xs), 0)
    decreases |xs|
  {
    hide Item, Nests;
    NestsItem(xs[0]);
    if |xs| > 1 {
      NestsJoin(xs[1..]);
      NestsComma();
      NestsThen(xs[0], 0, ",", 0);
      NestsThen(xs[0] + ",", 0, Join(xs[1..]), 0);
    }
  }

  lemma NestsComma()
    ensures Nests(",", 0)
  {
  }

  /** A printed term is an argument. */
  lemma {:induction false} PrintItem(t: Term)
    requires WellFormed(t)
    ensures Item(Print(t))
  {
    hide Item, Nests, Nested, Join;
    match t {
      case Leaf(name) => LeafItem(name);
      case Node(name, args) =>
        forall i | 0 <= i < |args|
          ensures Item(Print(args[i]))
        {
          PrintItem(args[i]);
        }
        NestsJoin(Prints(args));
        NodeItem(name, Join(Prints(args)));
    }
  }

  lemma LeafItem(x: string)
    requires x != [] && AllIdent(x)
    ensures Item(x)
  {
  }

  lemma NodeItem(id: string, inner: string)
    requires AllIdent(id) && Nests(inner, 0)
    ensures Item(Nested(id, inner))
  {
    hide Nests;
  }

  /** Parsing a printed application gives back the template and its arguments. */
  lemma ParsePrint(name: string, args: seq<Term>)
    requires WellFormed(Node(name, args))
    ensures Parse(Print(Node(name, args))) == Some(Name(name, Prints(args)))
  {
    forall i | 0 <= i < |args|
      ensures Item(Print(args[i]))
    {
      PrintItem(args[i]);
    }
    var n := Name(name, Prints(args));
    var inner := Join(Prints(args));
    NestedJoin(name, inner, "");
    hide Item, Parse, Join, Nested;
    assert Nested(name, inner) + "" == Nested(name, inner);
    assert Written(Print(Node(name, args)), n, "");
    ParseComplete(Print(Node(name, args)), n, "");
  }

  lemma {:induction false} JoinLonger(xs: seq<string>, i: nat)
    requires i < |xs|
    ensures |xs[i]| <= |Join(xs)|
  {
    if i > 0 {
      JoinLonger(xs[1..], i - 1);
    }
  }

  /** Every piece is shorter than the name, so it fits where the name fits. */
  lemma PiecesFit(s: string)
    requires Parse(s).Some?
    ensures var n := Parse(s).value; |n.template| < |s| && forall i :: 0 <= i < |n.args| ==> |n.args[i]| < |s|
  {
    var n := Parse(s).value;
    ParseExactly(s, n);
    var rest :| Written(s, n, rest);
    hide Parse, Join, Items, AllIdent;
    forall i | 0 <= i < |n.args|
      ensures |n.args[i]| < |s|
    {
      JoinLonger(n.args, i);
    }
  }

  /** Parsing again and again: the term a name stands for, if it is one. */
  function Read(s: string): Option<Term>
    decreases |s|, 1, 0
  {
    if s != [] && AllIdent(s) then Some(Leaf(s))
    else match Parse(s)
      case None => None
      case Some(n) =>
        PiecesFit(s);
        var args := ReadAll(n.args, |s|);
        if args.Some? then Some(Node(n.template, args.value)) else None
  }

  function ReadAll(xs: seq<string>, limit: nat): Option<seq<Term>>
    requires forall i :: 0 <= i < |xs| ==> |xs[i]| < limit
    decreases limit, 0, |xs|
  {
    if xs == [] then Some([])
    else
      var first, rest := Read(xs[0]), ReadAll(xs[1..], limit);
      if first.Some? && rest.Some? then Some([first.value] + rest.value) else None
  }

  lemma ReadNone(limit: nat)
    ensures Prints([]) == [] && ReadAll([], limit) == Some([])
  {
  }

  lemma PrintsMore(ts: seq<Term>)
    requires ts != []
    ensures Prints(ts) == [Print(ts[0])] + Prints(ts[1..])
  {
    hide Print;
  }

  lemma ReadMore(x: string, xs: seq<string>, limit: nat, t: Term, ts: seq<Term>)
    requires |x| < limit && forall i :: 0 <= i < |xs| ==> |xs[i]| < limit
    requires Read(x) == Some(t) && ReadAll(xs, limit) == Some(ts)
    ensures ReadAll([x] + xs, limit) == Some([t] + ts)
  {
    hide Read;
    assert ([x] + xs)[1..] == xs;
  }

  lemma {:induction false} NotIdent(id: string, inner: string)
    ensures !AllIdent(Nested(id, inner))
  {
    assert Nested(id, inner)[|id|] == '(';
  }

  /** Repeated parsing undoes printing, at any nesting depth. */
  lemma {:induction false} ReadPrint(t: Term)
    requires WellFormed(t)
    ensures Read(Print(t)) == Some(t)
    decreases t, 1, 0
  {
    match t {
      case Leaf(_) =>
      case Node(name, args) =>
        ParsePrint(name, args);
        PiecesFit(Print(t));
        NotIdent(name, Join(Prints(args)));
        ReadPrints(t, args, |Print(t)|);
        hide Parse, Prints, Join, Nested;
    }
  }

  lemma {:induction false} ReadPrints(t: Term, ts: seq<Term>, limit: nat)
    requires forall i :: 0 <= i < |ts| ==> ts[i] < t && WellFormed(ts[i]) && |Print(ts[i])| < limit
    ensures ReadAll(Prints(ts), limit) == Some(ts)
    decreases t, 0, |ts|
  {
    hide Read, ReadAll, Print, Prints, WellFormed;
    if ts == [] {
      ReadNone(limit);
    } else {
      ReadPrint(ts[0]);
      ReadPrints(t, ts[1..], limit);
      PrintsMore(ts);
      assert ts == [ts[0]] + ts[1..];
      ReadMore(Print(ts[0]), Prints(ts[1..]), limit, ts[0], ts[1..]);
    }
  }

  /** crypto_alloc_instance2: the name of an instance, unless it is too long. */
  function InstanceName(name: string, inner: string): Option<string> {
    if |name| + |inner| + 2 >= MAX_ALG_NAME then None else Some(Nested(name, inner))
  }

  /** A name is given exactly if it fits into its buffer with the NUL behind it. */
  lemma InstanceFits(name: string, inner: string)
    ensures InstanceName(name, inner) == if |Nested(name, inner) + "\0"| <= MAX_ALG_NAME then Some(Nested(name, inner))
                                         else None
  {
  }

  /** The name given to an instance of a template over an algorithm parses back
      into the two. */
  lemma InstanceParses(name: string, t: Term)
    requires WellFormed(Leaf(name)) && WellFormed(t) && InstanceName(name, Print(t)).Some?
    ensures Parse(InstanceName(name, Print(t)).value) == Some(Name(name, [Print(t)]))
  {
    ParsePrint(name, [t]);
    assert Prints([t]) == [Print(t)];
  }

  // ------------------------------------------------------------------- attributes

  /** A parameter for the template: an algorithm by name, or a number. */
  datatype Attr = Alg(name: string) | U32(num: nat)

  function Value(x: string, base: nat): nat
    requires AllDigits(x)
  {
    if x == [] then 0 else Value(x[..|x| - 1], base) * base + (x[|x| - 1] - '0') as nat
  }

  /** The leading digits below eight. */
  function Octal(x: string): (r: string)
    ensures AllDigits(x) ==> AllDigits(r)
  {
    if x == [] || x[0] >= '8' then [] else [x[0]] + Octal(x[1..])
  }

  /** simple_strtol with base 0 on digits, kept in 32 bits. */
  function StrTol(x: string): nat
    requires AllDigits(x)
  {
    (if x != [] && x[0] == '0' then Value(Octal(x), 8) else Value(x, 10)) % 0x1_0000_0000
  }

  function AttrOf(x: string): Attr {
    if AllDigits(x) then U32(StrTol(x)) else Alg(x)
  }

  function AttrsOf(xs: seq<string>): (r: seq<Attr>)
    ensures |r| == |xs|
  {
    seq(|xs|, i requires 0 <= i < |xs| => AttrOf(xs[i]))
  }

  /** A number written out in base eight or ten. */
  function Numeral(n: nat, base: nat): string
    requires base == 8 || base == 10
    decreases n
  {
    Divided(n, base);
    (if n < base then [] else Numeral(n / base, base)) + ['0' + (n % base) as char]
  }

  predicate Below(x: string, base: nat) {
    forall i :: 0 <= i < |x| ==> '0' <= x[i] && x[i] as int - '0' as int < base
  }

  lemma LastDigit(front: string, d: nat, base: nat)
    requires d < base <= 10 && AllDigits(front) && Below(front, base)
    ensures var x := front + ['0' + d as char];
            AllDigits(x) && Below(x, base) && Value(x, base) == Value(front, base) * base + d
  {
    var x := front + ['0' + d as char];
    assert x[..|x| - 1] == front && x[|x| - 1] == '0' + d as char;
    assert (x[|x| - 1] - '0') as nat == d;
  }

  lemma Divided(n: nat, base: nat)
    requires base == 8 || base == 10
    ensures n == n / base * base + n % base && n % base < base && (n >= base ==> 0 < n / base < n)
  {
    if base == 8 {
      assert n == n / 8 * 8 + n % 8;
    } else {
      assert n == n / 10 * 10 + n % 10;
    }
  }

  lemma NoDigits(base: nat)
    ensures AllDigits("") && Below("", base) && Value("", base) == 0
  {
  }

  lemma {:induction false} NumeralValue(n: nat, base: nat)
    requires base == 8 || base == 10
    ensures var x := Numeral(n, base);
            x != [] && AllDigits(x) && Below(x, base) && Value(x, base) == n && (n > 0 ==> x[0] != '0')
    decreases n
  {
    hide Value, AllDigits, Below;
    Divided(n, base);
    var front := if n < base then [] else Numeral(n / base, base);
    if n >= base {
      NumeralValue(n / base, base);
    } else {
      NoDigits(base);
    }
    LastDigit(front, n % base, base);
  }

  lemma {:induction false} OctalPrefix(x: string, tail: string)
    requires Below(x, 8) && (tail == [] || tail[0] >= '8')
    ensures Octal(x + tail) == x
  {
    if x == [] {
      assert x + tail == tail;
    } else {
      assert (x + tail)[1..] == x[1..] + tail && (x + tail)[0] == x[0] < '8';
      OctalPrefix(x[1..], tail);
    }
  }

  lemma {:induction false} ValueZero(x: string, base: nat)
    requires AllDigits(x)
    ensures AllDigits("0" + x) && Value("0" + x, base) == Value(x, base)
  {
    var y := "0" + x;
    if x == [] {
      assert y[..|y| - 1] == [];
    } else {
      assert y[..|y| - 1] == "0" + x[..|x| - 1];
      ValueZero(x[..|x| - 1], base);
    }
  }

  /** A number written in decimal is passed as that number, in 32 bits. */
  lemma NumberPassed(n: nat)
    ensures AttrOf(Numeral(n, 10)) == U32(n % 0x1_0000_0000)
  {
    NumeralValue(n, 10);
    hide Value, Octal;
    if n == 0 {
      assert Numeral(0, 10) == "0";
      ZeroOnce();
    }
  }

  lemma ZeroOnce()
    ensures StrTol("0") == 0
  {
    OctalPrefix("0", "");
    assert "0" + "" == "0" && "0"[..0] == [];
    assert Value("0", 8) == Value("0"[..0], 8) * 8;
  }

  /** With a leading zero it is taken as octal, up to a digit that is not. */
  lemma OctalPassed(n: nat, tail: string)
    requires AllDigits(tail) && (tail == [] || tail[0] >= '8')
    ensures AttrOf("0" + Numeral(n, 8) + tail) == U32(n % 0x1_0000_0000)
  {
    var x := Numeral(n, 8);
    NumeralValue(n, 8);
    ValueZero(x, 8);
    hide Value, Numeral;
    assert Below("0" + x, 8);
    OctalPrefix("0" + x, tail);
    hide Octal;
  }

  /** Anything else is passed as a name. */
  lemma NamePassed(x: string, i: nat)
    requires i < |x| && !Digit(x[i])
    ensures AttrOf(x) == Alg(x)
  {
  }

  // ------------------------------------------------------------------- the code

  /** The character at a cursor; the end of the string reads as NUL. */
  function CharAt(s: string, p: nat): char {
    if p < |s| then s[p] else '\0'
  }

  lemma IdentLenStep(s: string, p: nat)
    requires p < |s| && IdentChar(s[p])
    ensures IdentLen(s[p..]) == 1 + IdentLen(s[p + 1..])
  {
    assert s[p..][1..] == s[p + 1..];
  }

  lemma DigitsSnoc(s: string, p: nat, q: nat)
    requires p <= q < |s|
    ensures AllDigits(s[p..q + 1]) <==> AllDigits(s[p..q]) && Digit(s[q])
  {
    var x, y := s[p..q], s[p..q + 1];
    assert y == x + [s[q]];
    assert y[|x|] == s[q];
    assert forall i :: 0 <= i < |x| ==> y[i] == x[i];
  }

  /** The cursor past an identifier, and whether some character is no digit. */
  method ScanIdent(s: string, p: nat) returns (q: nat, notNum: bool)
    requires p <= |s|
    ensures q == p + IdentLen(s[p..]) && q <= |s| && notNum == !AllDigits(s[p..q])
  {
    q, notNum := p, false;
    while IdentChar(CharAt(s, q))
      invariant p <= q <= |s| && q - p + IdentLen(s[q..]) == IdentLen(s[p..])
      invariant notNum == !AllDigits(s[p..q])
      decreases |s| - q
    {
      IdentLenStep(s, q);
      DigitsSnoc(s, p, q);
      hide IdentLen, AllDigits;
      notNum := notNum || !Digit(s[q]);
      q := q + 1;
    }
  }

  lemma CloseLenStep(s: string, p: nat, d: nat)
    requires p < |s| && s[p] != '\0' && !(s[p] == ')' && d == 0)
    ensures var c := CloseLen(s[p..], d);
            var rest := CloseLen(s[p + 1..], if s[p] == '(' then d + 1 else if s[p] == ')' then d - 1 else d);
            c == if rest.Some? then Some(rest.value + 1) else None
  {
    assert s[p..][1..] == s[p + 1..] && s[p..][0] == s[p];
  }

  /** From an opening parenthesis to the character behind the one that closes it. */
  method ScanNested(s: string, p: nat) returns (q: Option<nat>)
    requires p < |s|
    ensures var c := CloseLen(s[p + 1..], 0); q == if c.Some? then Some(p + c.value + 2) else None
  {
    var i, depth: nat := p, 0;
    while true
      invariant p <= i < |s|
      invariant var c, now := CloseLen(s[p + 1..], 0), CloseLen(s[i + 1..], depth);
                c.Some? == now.Some? && (c.Some? ==> p + c.value == i + now.value)
      decreases |s| - i
    {
      i := i + 1;
      if CharAt(s, i) == '\0' {
        return None;
      }
      if s[i] == ')' && depth == 0 {
        break;
      }
      CloseLenStep(s, i, depth);
      hide CloseLen;
      if s[i] == '(' {
        depth := depth + 1;
      } else if s[i] == ')' {
        depth := depth - 1;
      }
    }
    q := Some(i + 1);
  }

  /** The argument at the cursor: where it ends and whether it names an algorithm. */
  method ScanItem(s: string, p: nat) returns (q: Option<nat>, notNum: bool)
    requires p <= |s|
    ensures var n := ItemLen(s[p..]);
            q == if n.Some? then Some(p + n.value) else None
    ensures q.Some? ==> q.value <= |s| && notNum == !AllDigits(s[p..q.value])
  {
    hide IdentLen, CloseLen, AllDigits;
    var k;
    k, notNum := ScanIdent(s, p);
    assert k < |s| ==> s[p..][k - p] == s[k] && s[p..][k - p + 1..] == s[k + 1..];
    if CharAt(s, k) == '(' {
      q := ScanNested(s, k);
      notNum := true;
      if q.Some? {
        HasParenthesis(s, p, k, q.value);
      }
    } else {
      q := if k == p then None else Some(k);
    }
  }

  lemma HasParenthesis(s: string, p: nat, k: nat, q: nat)
    requires p <= k < q <= |s| && s[k] == '('
    ensures !AllDigits(s[p..q])
  {
    assert s[p..q][k - p] == '(';
  }

  /** What cryptomgr_schedule_probe hands to the template. */
  datatype Probe = Probe(template: string, attrs: seq<Attr>)

  /** The cursor is behind a '(' or ',' with the arguments `got` read. */
  ghost predicate Reading(s: string, k: nat, p: nat, got: seq<string>) {
    && k < p <= |s| && |got| < MAX_ATTRS
    && var all, rest := ParseItems(s[k + 1..], 0), ParseItems(s[p..], |got|);
       all == if rest.Some? then Some(got + rest.value) else None
  }

  lemma ReadingFails(s: string, k: nat, p: nat, got: seq<string>)
    requires Reading(s, k, p, got)
    requires var n := ItemLen(s[p..]);
             n.None? || |got| + 1 >= MAX_ATTRS || CharAt(s, p + n.value) !in {')', ','}
    ensures ParseItems(s[k + 1..], 0).None?
  {
    var n := ItemLen(s[p..]);
    assert n.Some? && p + n.value < |s| ==> s[p..][n.value] == s[p + n.value];
    hide ItemLen;
  }

  lemma ReadingLast(s: string, k: nat, p: nat, got: seq<string>, q: nat)
    requires Reading(s, k, p, got) && ItemLen(s[p..]) == Some(q - p) && |got| + 1 < MAX_ATTRS && CharAt(s, q) == ')'
    ensures ParseItems(s[k + 1..], 0) == Some(got + [s[p..q]])
  {
    hide ItemLen;
    assert s[p..][q - p] == s[q] && s[p..][..q - p] == s[p..q];
  }

  lemma ReadingMore(s: string, k: nat, p: nat, got: seq<string>, q: nat)
    requires Reading(s, k, p, got) && ItemLen(s[p..]) == Some(q - p) && |got| + 1 < MAX_ATTRS && CharAt(s, q) == ','
    ensures Reading(s, k, q + 1, got + [s[p..q]])
  {
    hide ItemLen;
    assert s[p..][q - p] == s[q] && s[p..][..q - p] == s[p..q] && s[p..][q - p + 1..] == s[q + 1..];
    var rest := ParseItems(s[q + 1..], |got| + 1);
    if rest.Some? {
      assert got + ([s[p..q]] + rest.value) == (got + [s[p..q]]) + rest.value;
    }
  }

  lemma AttrsSnoc(xs: seq<string>, x: string)
    ensures AttrsOf(xs + [x]) == AttrsOf(xs) + [AttrOf(x)]
  {
    hide AttrOf;
  }

  /** The name parser of cryptomgr_schedule_probe; the pieces it copies are all
      shorter than the name. */
  method ScheduleProbe(s: string) returns (r: Option<Probe>)
    ensures match Parse(s)
            case None => r.None?
            case Some(n) => r == Some(Probe(n.template, AttrsOf(n.args)))
  {
    hide IdentLen, ParseItems, ItemLen, AllDigits, Reading, AttrsOf;
    var k, _ := ScanIdent(s, 0);
    assert s[0..] == s;
    if k == 0 || CharAt(s, k) != '(' {
      return None;
    }
    var attrs: seq<Attr> := [];
    var p := k + 1;
    ghost var got: seq<string> := [];
    ReadingStarts(s, k);
    while true
      invariant k < p <= |s| && |got| == |attrs| < MAX_ATTRS && Reading(s, k, p, got) && attrs == AttrsOf(got)
      decreases |s| - p
    {
      var q, notNum := ScanItem(s, p);
      if q.None? {
        ReadingFails(s, k, p, got);
        return None;
      }
      var x := s[p..q.value];
      AttrsSnoc(got, x);
      attrs := attrs + [if notNum then Alg(x) else U32(StrTol(x))];
      if |attrs| >= MAX_ATTRS {
        ReadingFails(s, k, p, got);
        return None;
      }
      if CharAt(s, q.value) == ')' {
        ReadingLast(s, k, p, got, q.value);
        got := got + [x];
        break;
      }
      if CharAt(s, q.value) != ',' {
        ReadingFails(s, k, p, got);
        return None;
      }
      ReadingMore(s, k, p, got, q.value);
      got, p := got + [x], q.value + 1;
    }
    r := Some(Probe(s[..k], attrs));
  }

  lemma ReadingStarts(s: string, k: nat)
    requires k < |s|
    ensures Reading(s, k, k + 1, []) && AttrsOf([]) == []
  {
    hide ParseItems;
    var rest := ParseItems(s[k + 1..], 0);
    assert rest.Some? ==> [] + rest.value == rest.value;
  }
}

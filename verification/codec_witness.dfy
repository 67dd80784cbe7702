/** The laws that the cell round trips of module GoogleSheets assume of the
    JSON codec and of Python's float text hold of at least one codec, so the
    round-trip lemmas are not vacuous. The codec built here reads every
    whole number as a double, writes values in a prefix-free tagged form
    and decodes by choosing the value so written. */
module CodecWitness {
  import opened Optional
  import opened Text
  import opened GoogleSheets

  /** The reals the witness treats as doubles: the whole numbers. */
  predicate Whole(r: real)
  {
    r.Floor as real == r
  }

  // ------------------------------------------------------------ encoding

  function Unary(n: nat): string
  {
    if n == 0 then "e" else "1" + Unary(n - 1)
  }

  /** A sign, then the magnitude in unary. */
  function EncInt(i: int): string
  {
    [if i < 0 then '-' else '+'] + Unary(if i < 0 then -i else i)
  }

  function EncChars(s: string): string
  {
    if s == [] then "e" else "c" + [s[0]] + EncChars(s[1..])
  }

  /** The first character of a written value: its kind. */
  function Tag(v: Value): char
  {
    match v
    case Null => 'n'
    case Str(_) => 's'
    case Int(_) => 'i'
    case Float(_) => 'f'
    case List(_) => 'l'
    case Dict(_) => 'd'
  }

  /** The tag of the value, then its contents. */
  function Enc(v: Value): string
    decreases v
  {
    match v
    case Null => [Tag(v)]
    case Str(s) => [Tag(v)] + EncChars(s)
    case Int(i) => [Tag(v)] + EncInt(i)
    case Float(r) => [Tag(v)] + EncInt(r.Floor)
    case List(items) => [Tag(v)] + EncList(items)
    case Dict(entries) => [Tag(v)] + EncEntries(entries)
  }

  function EncList(items: seq<Value>): string
    decreases items
  {
    if items == [] then "e" else "c" + Enc(items[0]) + EncList(items[1..])
  }

  function EncEntries(entries: seq<(string, Value)>): string
    decreases entries
  {
    if entries == [] then "e" else "c" + EncEntry(entries[0]) + EncEntries(entries[1..])
  }

  function EncEntry(entry: (string, Value)): string
    decreases entry
  {
    EncChars(entry.0) + Enc(entry.1)
  }

  // --------------------------------------------------------- the codec

  /** The shape the witness gives `isFloat`; the other fields do not matter
      to `Representable`. */
  const Shape: Codec := Codec((v: Value) => "", (s: string) => None, (r: real) => "", (t: string) => None, Whole, (v: Value) => "")

  ghost function Decode(s: string): Option<Value>
  {
    if exists v :: Enc(v) == s && Representable(v, Shape) then
      Some(var v :| Enc(v) == s && Representable(v, Shape); v)
    else None
  }

  ghost function ParseNumber(t: string): Option<real>
  {
    if exists n: int :: IntToString(n) == t then Some((var n: int :| IntToString(n) == t; n) as real) else None
  }

  ghost const Witness: Codec :=
    Codec((v: Value) => Enc(v), (s: string) => Decode(s), (r: real) => IntToString(r.Floor),
          (t: string) => ParseNumber(t), Whole, (v: Value) => Enc(v))

  // ------------------------------------------------------------ proofs

  lemma DropCommon(p: string, x: string, y: string)
    requires p + x == p + y
    ensures x == y
  {
    assert x == (p + x)[|p|..];
    assert y == (p + y)[|p|..];
  }

  lemma {:induction false} UnaryInjective(m: nat, n: nat, r1: string, r2: string)
    requires Unary(m) + r1 == Unary(n) + r2
    ensures m == n && r1 == r2
    decreases m
  {
    assert (Unary(m) + r1)[0] == (if m == 0 then 'e' else '1');
    assert (Unary(n) + r2)[0] == (if n == 0 then 'e' else '1');
    if m == 0 {
      DropCommon("e", r1, r2);
    } else {
      assert Unary(m) + r1 == "1" + (Unary(m - 1) + r1);
      assert Unary(n) + r2 == "1" + (Unary(n - 1) + r2);
      DropCommon("1", Unary(m - 1) + r1, Unary(n - 1) + r2);
      UnaryInjective(m - 1, n - 1, r1, r2);
    }
  }

  lemma EncIntInjective(i: int, j: int, r1: string, r2: string)
    requires EncInt(i) + r1 == EncInt(j) + r2
    ensures i == j && r1 == r2
  {
    var si: nat, sj: nat := if i < 0 then -i else i, if j < 0 then -j else j;
    var ci, cj := if i < 0 then '-' else '+', if j < 0 then '-' else '+';
    assert EncInt(i) + r1 == [ci] + (Unary(si) + r1);
    assert EncInt(j) + r2 == [cj] + (Unary(sj) + r2);
    assert ci == ([ci] + (Unary(si) + r1))[0] == ([cj] + (Unary(sj) + r2))[0] == cj;
    DropCommon([ci], Unary(si) + r1, Unary(sj) + r2);
    UnaryInjective(si, sj, r1, r2);
  }

  lemma {:induction false} EncCharsInjective(s: string, t: string, r1: string, r2: string)
    requires EncChars(s) + r1 == EncChars(t) + r2
    ensures s == t && r1 == r2
    decreases s
  {
    var a, b := EncChars(s) + r1, EncChars(t) + r2;
    assert a[0] == (if s == [] then 'e' else 'c');
    assert b[0] == (if t == [] then 'e' else 'c');
    if s == [] {
      DropCommon("e", r1, r2);
    } else {
      assert a[1] == s[0] && b[1] == t[0];
      assert a == ['c', s[0]] + (EncChars(s[1..]) + r1);
      assert b == ['c', s[0]] + (EncChars(t[1..]) + r2);
      DropCommon(['c', s[0]], EncChars(s[1..]) + r1, EncChars(t[1..]) + r2);
      EncCharsInjective(s[1..], t[1..], r1, r2);
      assert s == [s[0]] + s[1..] && t == [t[0]] + t[1..];
    }
  }

  /** The encoding is prefix-free on representable values: the written form
      of a value followed by anything determines the value and the rest. */
  lemma {:induction false} EncInjective(a: Value, b: Value, r1: string, r2: string)
    requires Representable(a, Shape) && Representable(b, Shape)
    requires Enc(a) + r1 == Enc(b) + r2
    ensures a == b && r1 == r2
    decreases a
  {
    SameTag(a, b, r1, r2);
    var body1, body2 := Enc(a)[1..], Enc(b)[1..];
    match a
    case Null =>
      assert b.Null? && body1 == [] == body2;
      assert r1 == body1 + r1 && r2 == body2 + r2;
    case Str(s) =>
      assert b.Str? && body1 == EncChars(s) && body2 == EncChars(b.s);
      EncCharsInjective(s, b.s, r1, r2);
    case Int(i) =>
      assert b.Int? && body1 == EncInt(i) && body2 == EncInt(b.i);
      EncIntInjective(i, b.i, r1, r2);
    case Float(r) =>
      assert b.Float? && body1 == EncInt(r.Floor) && body2 == EncInt(b.r.Floor);
      EncIntInjective(r.Floor, b.r.Floor, r1, r2);
      assert Whole(r) && Whole(b.r);
    case List(items) =>
      assert b.List? && body1 == EncList(items) && body2 == EncList(b.items);
      EncListInjective(items, b.items, r1, r2);
    case Dict(entries) =>
      assert b.Dict? && body1 == EncEntries(entries) && body2 == EncEntries(b.entries);
      EncEntriesInjective(entries, b.entries, r1, r2);
  }

  /** Two written values that agree, each followed by its rest, open with
      the same tag, and their contents followed by the rests agree. */
  lemma SameTag(a: Value, b: Value, r1: string, r2: string)
    requires Enc(a) + r1 == Enc(b) + r2
    ensures Tag(a) == Tag(b)
    ensures Enc(a)[1..] + r1 == Enc(b)[1..] + r2
  {
    OpensWithTag(a);
    OpensWithTag(b);
    var body1, body2 := Enc(a)[1..], Enc(b)[1..];
    assert Enc(a) + r1 == [Tag(a)] + (body1 + r1);
    assert Enc(b) + r2 == [Tag(b)] + (body2 + r2);
    assert Tag(a) == ([Tag(a)] + (body1 + r1))[0] == ([Tag(b)] + (body2 + r2))[0] == Tag(b);
    DropCommon([Tag(a)], body1 + r1, body2 + r2);
  }

  /** A written value is its tag followed by its contents. */
  lemma OpensWithTag(v: Value)
    ensures Enc(v) == [Tag(v)] + Enc(v)[1..]
  {
  }

  lemma {:induction false} EncListInjective(xs: seq<Value>, ys: seq<Value>, r1: string, r2: string)
    requires forall k | 0 <= k < |xs| :: Representable(xs[k], Shape)
    requires forall k | 0 <= k < |ys| :: Representable(ys[k], Shape)
    requires EncList(xs) + r1 == EncList(ys) + r2
    ensures xs == ys && r1 == r2
    decreases xs
  {
    assert (EncList(xs) + r1)[0] == (if xs == [] then 'e' else 'c');
    assert (EncList(ys) + r2)[0] == (if ys == [] then 'e' else 'c');
    if xs == [] {
      DropCommon("e", r1, r2);
    } else {
      var restX, restY := EncList(xs[1..]) + r1, EncList(ys[1..]) + r2;
      assert EncList(xs) + r1 == "c" + (Enc(xs[0]) + restX);
      assert EncList(ys) + r2 == "c" + (Enc(ys[0]) + restY);
      DropCommon("c", Enc(xs[0]) + restX, Enc(ys[0]) + restY);
      EncInjective(xs[0], ys[0], restX, restY);
      EncListInjective(xs[1..], ys[1..], r1, r2);
      assert xs == [xs[0]] + xs[1..] && ys == [ys[0]] + ys[1..];
    }
  }

  lemma {:induction false} EncEntriesInjective(es: seq<(string, Value)>, fs: seq<(string, Value)>, r1: string, r2: string)
    requires forall k | 0 <= k < |es| :: EntryRepresentable(es[k], Shape)
    requires forall k | 0 <= k < |fs| :: EntryRepresentable(fs[k], Shape)
    requires EncEntries(es) + r1 == EncEntries(fs) + r2
    ensures es == fs && r1 == r2
    decreases es
  {
    assert (EncEntries(es) + r1)[0] == (if es == [] then 'e' else 'c');
    assert (EncEntries(fs) + r2)[0] == (if fs == [] then 'e' else 'c');
    if es == [] {
      DropCommon("e", r1, r2);
    } else {
      var restE, restF := EncEntries(es[1..]) + r1, EncEntries(fs[1..]) + r2;
      assert EncEntries(es) + r1 == "c" + (EncEntry(es[0]) + restE);
      assert EncEntries(fs) + r2 == "c" + (EncEntry(fs[0]) + restF);
      DropCommon("c", EncEntry(es[0]) + restE, EncEntry(fs[0]) + restF);
      EncEntryInjective(es[0], fs[0], restE, restF);
      EncEntriesInjective(es[1..], fs[1..], r1, r2);
      assert es == [es[0]] + es[1..] && fs == [fs[0]] + fs[1..];
    }
  }

  lemma {:induction false} EncEntryInjective(e: (string, Value), f: (string, Value), r1: string, r2: string)
    requires EntryRepresentable(e, Shape) && EntryRepresentable(f, Shape)
    requires EncEntry(e) + r1 == EncEntry(f) + r2
    ensures e == f && r1 == r2
    decreases e
  {
    assert EncEntry(e) + r1 == EncChars(e.0) + (Enc(e.1) + r1);
    assert EncEntry(f) + r2 == EncChars(f.0) + (Enc(f.1) + r2);
    EncCharsInjective(e.0, f.0, Enc(e.1) + r1, Enc(f.1) + r2);
    EncInjective(e.1, f.1, r1, r2);
  }

  /** Whether a value is representable depends on the codec's `isFloat` only. */
  lemma {:induction false} RepresentableByIsFloat(v: Value, c1: Codec, c2: Codec)
    requires c1.isFloat == c2.isFloat
    requires Representable(v, c1)
    ensures Representable(v, c2)
    decreases v
  {
    match v
    case List(items) =>
      forall k | 0 <= k < |items| ensures Representable(items[k], c2) {
        RepresentableByIsFloat(items[k], c1, c2);
      }
    case Dict(entries) =>
      forall k | 0 <= k < |entries| ensures EntryRepresentable(entries[k], c2) {
        EntryByIsFloat(entries[k], c1, c2);
      }
    case _ =>
  }

  lemma {:induction false} EntryByIsFloat(entry: (string, Value), c1: Codec, c2: Codec)
    requires c1.isFloat == c2.isFloat
    requires EntryRepresentable(entry, c1)
    ensures EntryRepresentable(entry, c2)
    decreases entry
  {
    RepresentableByIsFloat(entry.1, c1, c2);
  }

  /** `str(n)` opens with a minus sign exactly for negative numbers. */
  lemma IntToStringSign(n: int)
    ensures IntToString(n)[0] == '-' <==> n < 0
  {
    if n >= 0 {
      NatToStringDigits(n);
      assert IsDigit(NatToString(n)[0]);
    }
  }

  lemma IntToStringInjective(m: int, n: int)
    requires IntToString(m) == IntToString(n)
    ensures m == n
  {
    IntToStringSign(m);
    IntToStringSign(n);
    if m < 0 {
      DropCommon("-", NatToString(-m), NatToString(-n));
      NatToStringRoundTrip(-m);
      NatToStringRoundTrip(-n);
    } else {
      NatToStringRoundTrip(m);
      NatToStringRoundTrip(n);
    }
  }

  /** The witness keeps all three laws, and it reads every whole number as a
      double: so the laws are consistent, and the round trips they support
      cover integers, whole-number floats and containers of them. */
  lemma LawfulCodecExists()
    ensures Lawful(Witness)
    ensures forall r: real :: Whole(r) ==> Witness.isFloat(r)
  {
    forall v: Value | (v.List? || v.Dict?) && Representable(v, Witness)
      ensures Witness.dumps(v) != [] && Witness.loads(Witness.dumps(v)) == Some(v)
    {
      RepresentableByIsFloat(v, Witness, Shape);
      assert Enc(v) + [] == Enc(v);
      assert Witness.dumps(v) == Enc(v);
      var d := Decode(Enc(v));
      assert d.Some? && Enc(d.value) == Enc(v) && Representable(d.value, Shape);
      assert Enc(d.value) + [] == Enc(v) + [];
      EncInjective(d.value, v, [], []);
    }
    forall n: int | -MaxExactInt <= n <= MaxExactInt
      ensures Witness.parseFloat(IntToString(n)) == Some(n as real)
    {
      forall m: int | IntToString(m) == IntToString(n) ensures m == n {
        IntToStringInjective(m, n);
      }
    }
    forall r: real | Witness.isFloat(r)
      ensures Witness.floatText(r) != [] && Witness.parseFloat(Witness.floatText(r)) == Some(r)
    {
      var n := r.Floor;
      forall m: int | IntToString(m) == IntToString(n) ensures m == n {
        IntToStringInjective(m, n);
      }
    }
  }
}

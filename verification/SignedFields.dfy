/** Length-prefixed signing input (crates/wsnet-crypto/src/mac.rs): a list of fields as one
    byte string, with the prefix width as a parameter. */
module SignedFields {
  import opened Limits

  /** 256 to the power `w`. */
  function Pow(w: nat): (p: nat)
    ensures p > 0
  {
    if w == 0 then 1 else 256 * Pow(w - 1)
  }

  /** The low `w` bytes of `n`, most significant first: `(n as uN).to_be_bytes()`. */
  function BigEndian(w: nat, n: nat): (b: Bytes)
    ensures |b| == w
  {
    if w == 0 then [] else BigEndian(w - 1, n / 256) + [(n % 256) as byte]
  }

  function Value(b: Bytes): nat
  {
    if b == [] then 0 else 256 * Value(b[..|b| - 1]) + b[|b| - 1] as nat
  }

  lemma {:induction false} BigEndianRoundTrip(w: nat, n: nat)
    requires n < Pow(w)
    ensures Value(BigEndian(w, n)) == n
  {
    if w > 0 {
      BigEndianRoundTrip(w - 1, n / 256);
      assert BigEndian(w, n)[..w - 1] == BigEndian(w - 1, n / 256);
    }
  }

  lemma {:induction false} ValueRoundTrip(b: Bytes)
    ensures BigEndian(|b|, Value(b)) == b && Value(b) < Pow(|b|)
  {
    if b != [] {
      ValueRoundTrip(b[..|b| - 1]);
      assert Value(b) / 256 == Value(b[..|b| - 1]);
    }
  }

  datatype Field = Text(bytes: Bytes) | Word(width: nat, value: nat)

  function EncodeField(w: nat, f: Field): Bytes
  {
    match f
    case Text(b) => BigEndian(w, |b|) + b
    case Word(width, value) => BigEndian(width, value)
  }

  function Encode(w: nat, fields: seq<Field>): Bytes
  {
    if fields == [] then [] else EncodeField(w, fields[0]) + Encode(w, fields[1..])
  }

  predicate Fits(w: nat, f: Field)
  {
    match f
    case Text(b) => |b| < Pow(w)
    case Word(width, value) => value < Pow(width)
  }

  predicate SameKind(f: Field, g: Field)
  {
    (f.Text? && g.Text?) || (f.Word? && g.Word? && f.width == g.width)
  }

  /** Two field lists of one schema. */
  predicate SameSchema(fs: seq<Field>, gs: seq<Field>)
  {
    |fs| == |gs| && forall i :: 0 <= i < |fs| ==> SameKind(fs[i], gs[i])
  }

  predicate AllFit(w: nat, fs: seq<Field>) { forall i :: 0 <= i < |fs| ==> Fits(w, fs[i]) }

  lemma SameCut(a: Bytes, b: Bytes, c: Bytes, d: Bytes)
    requires a + b == c + d && |a| == |c|
    ensures a == c && b == d
  {
    assert (a + b)[..|a|] == a && (c + d)[..|a|] == c;
    assert (a + b)[|a|..] == b && (c + d)[|a|..] == d;
  }

  /** One field can be told apart whatever follows it. */
  lemma FieldReadsBack(w: nat, f: Field, g: Field, r: Bytes, s: Bytes)
    requires SameKind(f, g) && Fits(w, f) && Fits(w, g)
    requires EncodeField(w, f) + r == EncodeField(w, g) + s
    ensures f == g && r == s
  {
    match f {
      case Text(b) =>
        Assoc(BigEndian(w, |b|), b, r);
        Assoc(BigEndian(w, |g.bytes|), g.bytes, s);
        SameCut(BigEndian(w, |b|), b + r, BigEndian(w, |g.bytes|), g.bytes + s);
        BigEndianRoundTrip(w, |b|);
        BigEndianRoundTrip(w, |g.bytes|);
        SameCut(b, r, g.bytes, s);
      case Word(width, value) =>
        SameCut(BigEndian(width, value), r, BigEndian(width, g.value), s);
        BigEndianRoundTrip(width, value);
        BigEndianRoundTrip(width, g.value);
    }
  }

  /** Within one schema, and with lengths the prefix can hold, the bytes determine the fields. */
  lemma {:induction false} EncodingIsInjective(w: nat, fs: seq<Field>, gs: seq<Field>)
    requires SameSchema(fs, gs) && AllFit(w, fs) && AllFit(w, gs)
    ensures Encode(w, fs) == Encode(w, gs) <==> fs == gs
  {
    if fs != [] && Encode(w, fs) == Encode(w, gs) {
      FieldReadsBack(w, fs[0], gs[0], Encode(w, fs[1..]), Encode(w, gs[1..]));
      EncodingIsInjective(w, fs[1..], gs[1..]);
      assert fs == [fs[0]] + fs[1..] && gs == [gs[0]] + gs[1..];
    }
  }

  lemma MulMono(d: nat, a: nat, b: nat)
    requires a <= b
    ensures d * a <= d * b
  {
  }

  lemma LessCancels(d: nat, a: nat, b: nat)
    requires d * a < d * b
    ensures a < b
  {
    if a >= b { MulMono(d, b, a); }
  }

  lemma DivUnique(n: nat, d: nat, q: nat, r: nat)
    requires d > 0 && r < d && n == d * q + r
    ensures n / d == q
  {
    var k := n / d;
    assert n == d * k + n % d && d * (k + 1) == d * k + d && d * (q + 1) == d * q + d;
    LessCancels(d, q, k + 1);
    LessCancels(d, k, q + 1);
  }

  lemma DivTwice(n: nat, p: nat)
    requires p > 0
    ensures n / (256 * p) == n / 256 / p
  {
    var a, b := n / 256, n / 256 / p;
    assert n == 256 * a + n % 256 && a == p * b + a % p;
    assert a % p + 1 <= p;
    assert 256 * (a % p) + n % 256 < 256 * p;
    assert n == (256 * p) * b + (256 * (a % p) + n % 256);
    DivUnique(n, 256 * p, b, 256 * (a % p) + n % 256);
  }

  /** The most significant byte comes first. */
  lemma {:induction false} BigEndianAt(w: nat, n: nat, i: nat)
    requires i < w
    ensures BigEndian(w, n)[i] as nat == n / Pow(w - 1 - i) % 256
  {
    if i < w - 1 {
      BigEndianAt(w - 1, n / 256, i);
      DivTwice(n, Pow(w - 2 - i));
    }
  }

  /** A text is its length and its bytes, an integer its bytes alone. */
  lemma FieldLayout(f: Field)
    ensures Encode(4, [f]) == match f case Text(b) => BigEndian(4, |b|) + b case Word(k, v) => BigEndian(k, v)
    ensures BigEndian(4, 0x0A0B0C0D) == [0x0A, 0x0B, 0x0C, 0x0D]
  {
    assert [f][1..] == [];
    assert BigEndian(0, 0) == [] && BigEndian(1, 0x0A) == [0x0A] && BigEndian(2, 0x0A0B) == [0x0A, 0x0B];
    assert BigEndian(3, 0x0A0B0C) == [0x0A, 0x0B, 0x0C];
  }

  // ---- where it stops --------------------------------------------------------

  function Zeros(n: nat): Bytes { seq(n, _ => 0) }

  lemma {:induction false} BigEndianOfMultiple(w: nat, k: nat)
    ensures BigEndian(w, k * Pow(w)) == Zeros(w)
  {
    if w > 0 {
      assert k * Pow(w) == 256 * (k * Pow(w - 1));
      BigEndianOfMultiple(w - 1, k);
    }
  }

  lemma EncodeTwo(w: nat, a: Bytes, b: Bytes)
    ensures Encode(w, [Text(a), Text(b)]) == (BigEndian(w, |a|) + a) + (BigEndian(w, |b|) + b)
  {
    assert [Text(a), Text(b)][1..] == [Text(b)] && [Text(b)][1..] == [];
    assert Encode(w, [Text(b)]) == BigEndian(w, |b|) + b;
  }

  /** The length bound is sharp: one byte longer, and the prefix wraps to zero and a byte
      string can move from one field into the next unnoticed. */
  lemma WrappedPrefixCollides(w: nat)
    ensures var long := Zeros(Pow(w));
            && Encode(w, [Text(long), Text([])]) == Encode(w, [Text([]), Text(long)])
            && [Text(long), Text([])] != [Text([]), Text(long)]
  {
    var long := Zeros(Pow(w));
    BigEndianOfMultiple(w, 0);
    BigEndianOfMultiple(w, 1);
    EncodeTwo(w, long, []);
    EncodeTwo(w, [], long);
    assert [Text(long), Text([])][0] != [Text([]), Text(long)][0];
    assert (Zeros(w) + long) + (Zeros(w) + []) == Zeros(w) + [] + (Zeros(w) + long);
  }

  /** The schema matters: an integer field carries no prefix, so it reads like an empty text. */
  lemma SchemasCollide(w: nat)
    ensures Encode(w, [Text([])]) == Encode(w, [Word(w, 0)]) && [Text([])] != [Word(w, 0)]
  {
    BigEndianOfMultiple(w, 0);
    assert [Text([])][0] != [Word(w, 0)][0];
    assert BigEndian(w, 0) + [] == BigEndian(w, 0);
  }

  // ---- the builder -----------------------------------------------------------

  lemma {:induction false} EncodeAppend(w: nat, fields: seq<Field>, f: Field)
    ensures Encode(w, fields + [f]) == Encode(w, fields) + EncodeField(w, f)
  {
    if fields == [] {
      assert [f][1..] == [] && fields + [f] == [f];
    } else {
      assert (fields + [f])[1..] == fields[1..] + [f];
      EncodeAppend(w, fields[1..], f);
      Assoc(EncodeField(w, fields[0]), Encode(w, fields[1..]), EncodeField(w, f));
    }
  }

  class Builder {
    var buf: Bytes
    ghost var fields: seq<Field>

    ghost predicate Valid()
      reads this
    {
      buf == Encode(4, fields)
    }

    constructor ()
      ensures Valid() && fields == []
    {
      buf, fields := [], [];
    }

    method PushBytes(field: Bytes)
      requires Valid()
      modifies this
      ensures Valid() && fields == old(fields) + [Text(field)]
    {
      EncodeAppend(4, fields, Text(field));
      Assoc(buf, BigEndian(4, |field|), field);
      buf := buf + BigEndian(4, |field|);
      buf := buf + field;
      fields := fields + [Text(field)];
    }

    method PushU64(value: nat)
      requires Valid() && value <= U64_MAX
      modifies this
      ensures Valid() && fields == old(fields) + [Word(8, value)]
    {
      EncodeAppend(4, fields, Word(8, value));
      buf := buf + BigEndian(8, value);
      fields := fields + [Word(8, value)];
    }
  }

  /** Pushes a list of fields in order. */
  method Build(fields: seq<Field>) returns (buf: Bytes)
    requires forall f <- fields :: f.Word? ==> f.width == 8 && f.value <= U64_MAX
    ensures buf == Encode(4, fields)
  {
    var b := new Builder();
    for i := 0 to |fields|
      invariant fresh(b) && b.Valid() && b.fields == fields[..i]
    {
      match fields[i] {
        case Text(bytes) => b.PushBytes(bytes);
        case Word(_, value) => b.PushU64(value);
      }
      assert fields[..i + 1] == fields[..i] + [fields[i]];
    }
    assert fields[..|fields|] == fields;
    buf := b.buf;
  }
}

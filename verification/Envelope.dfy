/** The protected-record envelope (crates/wsnet-crypto/src/envelope.rs). The cipher is a
    parameter; `Ideal` says what section 2.8 of RFC 8439 is taken to provide. */
module Envelope {
  import opened Limits
  import opened SignedFields

  const PROTOCOL_VERSION: byte := 1
  const HEADER_LEN: nat := 25
  const TAG_LEN: nat := 16
  const AAD_CONTEXT: Bytes := [119, 115, 110, 101, 116, 47, 118, 49]

  datatype Direction = ClientToServer | ServerToClient

  datatype Context = Context(hubId: Bytes, sessionId: Bytes, epoch: Bytes)

  predicate ValidContext(c: Context) { |c.sessionId| == 16 && |c.epoch| == 16 }

  function DirectionByte(d: Direction): byte { if d.ClientToServer? then 0 else 1 }

  function AadFields(c: Context, d: Direction): seq<Field>
  {
    [Text([PROTOCOL_VERSION]), Text(c.hubId), Text(c.sessionId), Text(c.epoch), Text([DirectionByte(d)])]
  }

  function Aad(c: Context, d: Direction): Bytes { AAD_CONTEXT + Encode(2, AadFields(c, d)) }

  /** Builds the associated data field by field. */
  method BuildAad(c: Context, d: Direction) returns (aad: Bytes)
    ensures aad == Aad(c, d)
  {
    var fields := AadFields(c, d);
    aad := AAD_CONTEXT;
    for i := 0 to |fields|
      invariant aad == AAD_CONTEXT + Encode(2, fields[..i])
    {
      assert fields[..i + 1] == fields[..i] + [fields[i]];
      EncodeAppend(2, fields[..i], fields[i]);
      var field := fields[i].bytes;
      Assoc(AAD_CONTEXT, Encode(2, fields[..i]), BigEndian(2, |field|) + field);
      Assoc(AAD_CONTEXT + Encode(2, fields[..i]), BigEndian(2, |field|), field);
      aad := aad + BigEndian(2, |field|);
      aad := aad + field;
    }
    assert fields[..|fields|] == fields;
  }

  lemma AadFit(c: Context, d: Direction)
    requires ValidContext(c) && |c.hubId| < 65_536
    ensures AllFit(2, AadFields(c, d))
  {
    assert Pow(2) == 65_536 by { assert Pow(1) == 256; }
  }

  /** Contexts are told apart by their associated data, exactly. */
  lemma AadIsInjective(c: Context, d: Direction, c': Context, d': Direction)
    requires ValidContext(c) && ValidContext(c') && |c.hubId| < 65_536 && |c'.hubId| < 65_536
    ensures Aad(c, d) == Aad(c', d') <==> c == c' && d == d'
  {
    if Aad(c, d) == Aad(c', d') {
      var (f, g) := (AadFields(c, d), AadFields(c', d'));
      SameCut(AAD_CONTEXT, Encode(2, f), AAD_CONTEXT, Encode(2, g));
      AadFit(c, d);
      AadFit(c', d');
      EncodingIsInjective(2, f, g);
      assert f[1] == g[1] && f[2] == g[2] && f[3] == g[3] && f[4] == g[4];
    }
  }

  function Nonce(packetNo: nat): Bytes { [0, 0, 0, 0] + BigEndian(8, packetNo) }

  lemma EightBytes()
    ensures Pow(8) == U64_MAX + 1
  {
    assert Pow(1) == 256 && Pow(2) == 65_536 && Pow(3) == 0x100_0000 && Pow(4) == 0x1_0000_0000;
    assert Pow(5) == 0x100_0000_0000 && Pow(6) == 0x1_0000_0000_0000;
  }

  /** No two packet numbers of the 64-bit counter share a nonce. */
  lemma NonceIsInjective(n: nat, m: nat)
    requires n <= U64_MAX && m <= U64_MAX
    ensures |Nonce(n)| == 12 && (Nonce(n) == Nonce(m) <==> n == m)
  {
    EightBytes();
    BigEndianRoundTrip(8, n);
    BigEndianRoundTrip(8, m);
    if Nonce(n) == Nonce(m) { SameCut([0, 0, 0, 0], BigEndian(8, n), [0, 0, 0, 0], BigEndian(8, m)); }
  }

  // ---- sealing and opening ---------------------------------------------------

  datatype Input = Input(key: Bytes, nonce: Bytes, aad: Bytes)

  datatype Cipher = Cipher(encrypt: (Input, Bytes) -> Bytes, decrypt: (Input, Bytes) -> Option<Bytes>)

  /** Decryption inverts encryption and accepts nothing else, under any key, nonce or data.
      (Distinct inputs could not all keep distinct ciphertexts of length `|m| + TAG_LEN`, so
      only the tag's length is asked for.) */
  ghost predicate Ideal(z: Cipher)
  {
    && (forall i, m :: |z.encrypt(i, m)| >= TAG_LEN)
    && (forall i, m :: z.decrypt(i, z.encrypt(i, m)) == Some(m))
    && (forall i, c :: z.decrypt(i, c).Some? ==> z.encrypt(i, z.decrypt(i, c).value) == c)
    && (forall i, j, m :: i != j ==> z.decrypt(j, z.encrypt(i, m)).None?)
  }

  datatype Opened =
    | Opened(packetNo: nat, plaintext: Bytes)
    | TooShort(actual: nat)
    | UnsupportedVersion(version: byte)
    | EpochMismatch
    | AuthFailed

  function Seal(z: Cipher, key: Bytes, c: Context, d: Direction, packetNo: nat, plaintext: Bytes): Bytes
  {
    [PROTOCOL_VERSION] + c.epoch + BigEndian(8, packetNo)
      + z.encrypt(Input(key, Nonce(packetNo), Aad(c, d)), plaintext)
  }

  function Open(z: Cipher, key: Bytes, c: Context, d: Direction, e: Bytes): Opened
  {
    if |e| < HEADER_LEN + TAG_LEN then TooShort(|e|)
    else if e[0] != PROTOCOL_VERSION then UnsupportedVersion(e[0])
    else if e[1..17] != c.epoch then EpochMismatch
    else
      var packetNo := Value(e[17..25]);
      match z.decrypt(Input(key, Nonce(packetNo), Aad(c, d)), e[25..])
      case Some(plaintext) => Opened(packetNo, plaintext)
      case None => AuthFailed
  }

  lemma SealLayout(z: Cipher, key: Bytes, c: Context, d: Direction, n: nat, m: Bytes)
    requires Ideal(z) && ValidContext(c)
    ensures var e := Seal(z, key, c, d, n, m);
            && |e| >= HEADER_LEN + TAG_LEN
            && e[0] == PROTOCOL_VERSION && e[1..17] == c.epoch && e[17..25] == BigEndian(8, n)
            && e[25..] == z.encrypt(Input(key, Nonce(n), Aad(c, d)), m)
  {
  }

  /** What is opened is exactly what was sealed under the same key, context and direction;
      nothing lifted from another session, epoch or direction opens. */
  lemma OpensExactlyInPlace(z: Cipher, key: Bytes, c: Context, d: Direction, key': Bytes, c': Context, d': Direction, n: nat, m: Bytes)
    requires Ideal(z) && ValidContext(c) && ValidContext(c') && n <= U64_MAX
    requires |c.hubId| < 65_536 && |c'.hubId| < 65_536
    ensures var r := Open(z, key', c', d', Seal(z, key, c, d, n, m));
            && (key == key' && c == c' && d == d' ==> r == Opened(n, m))
            && (!(key == key' && c == c' && d == d') ==> !r.Opened?)
  {
    EightBytes();
    BigEndianRoundTrip(8, n);
    SealLayout(z, key, c, d, n, m);
    AadIsInjective(c, d, c', d');
  }

  /** Every byte string that opens is the seal of what it opens to: no other bytes will do. */
  lemma OnlySealsOpen(z: Cipher, key: Bytes, c: Context, d: Direction, e: Bytes)
    requires Ideal(z) && ValidContext(c) && Open(z, key, c, d, e).Opened?
    ensures var r := Open(z, key, c, d, e);
            r.packetNo <= U64_MAX && e == Seal(z, key, c, d, r.packetNo, r.plaintext)
  {
    EightBytes();
    ValueRoundTrip(e[17..25]);
    assert e[..1] == [PROTOCOL_VERSION];
    assert e == e[..1] + e[1..17] + e[17..25] + e[25..];
  }

  // ---- layouts ---------------------------------------------------------------

  lemma TwoBytes(n: nat)
    ensures n < 256 ==> BigEndian(2, n) == [0, n as byte]
  {
    if n < 256 {
      BigEndianAt(2, n, 0);
      BigEndianAt(2, n, 1);
      assert Pow(1) == 256 && Pow(0) == 1;
    }
  }

  /** The associated data, byte by byte: the domain, the version, the Hub's name, the session, the
      epoch and the direction, each behind its length in two bytes. */
  lemma AadLayout(c: Context, d: Direction)
    requires ValidContext(c)
    ensures Aad(c, d) == [0x77, 0x73, 0x6e, 0x65, 0x74, 0x2f, 0x76, 0x31]
                         + ([0, 1, 1] + ((BigEndian(2, |c.hubId|) + c.hubId) + (([0, 16] + c.sessionId) + (([0, 16] + c.epoch)
                         + [0, 1, if d == ClientToServer then 0 else 1]))))
  {
    TwoBytes(1);
    TwoBytes(16);
    var f := AadFields(c, d);
    assert f[1..][1..] == f[2..] && f[2..][1..] == f[3..] && f[3..][1..] == f[4..] && f[4..][1..] == [];
    assert Encode(2, f[4..]) == [0, 1, if d == ClientToServer then 0 else 1];
    assert Encode(2, f[3..]) == ([0, 16] + c.epoch) + Encode(2, f[4..]);
    assert Encode(2, f[2..]) == ([0, 16] + c.sessionId) + Encode(2, f[3..]);
    assert Encode(2, f[1..]) == (BigEndian(2, |c.hubId|) + c.hubId) + Encode(2, f[2..]);
    assert Encode(2, f) == [0, 1, 1] + Encode(2, f[1..]);
  }

  /** The nonce: four zero bytes and the packet number, most significant byte first. */
  lemma NonceLayout(n: nat, i: nat)
    requires i < 8
    ensures |Nonce(n)| == 12 && Nonce(n)[..4] == [0, 0, 0, 0] && Nonce(n)[4 + i] as nat == n / Pow(7 - i) % 256
  {
    BigEndianAt(8, n, i);
  }

  lemma SealReopens(z: Cipher, key: Bytes, c: Context, d: Direction, n: nat, m: Bytes)
    requires Ideal(z) && ValidContext(c) && n <= U64_MAX
    ensures Open(z, key, c, d, Seal(z, key, c, d, n, m)) == Opened(n, m)
  {
    EightBytes();
    BigEndianRoundTrip(8, n);
    SealLayout(z, key, c, d, n, m);
  }

  /** Why a record does not open: it is too short, of another version, of another epoch, or no
      seal under this key, context and direction, each only when nothing before it was wrong. */
  lemma OpenRefusesExactly(z: Cipher, key: Bytes, c: Context, d: Direction, e: Bytes)
    requires Ideal(z) && ValidContext(c)
    ensures var r := Open(z, key, c, d, e);
            && (r == TooShort(|e|) <==> |e| < 41)
            && (r.UnsupportedVersion? <==> |e| >= 41 && e[0] != 1)
            && (r.EpochMismatch? <==> |e| >= 41 && e[0] == 1 && e[1..17] != c.epoch)
            && (r.AuthFailed? <==> |e| >= 41 && e[0] == 1 && e[1..17] == c.epoch && forall n: nat, m :: n <= U64_MAX ==> e != Seal(z, key, c, d, n, m))
  {
    var r := Open(z, key, c, d, e);
    if r.Opened? { OnlySealsOpen(z, key, c, d, e); }
    if r.AuthFailed? {
      forall n: nat, m | n <= U64_MAX ensures e != Seal(z, key, c, d, n, m) {
        if |c.hubId| < 65_536 { OpensExactlyInPlace(z, key, c, d, key, c, d, n, m); } else { SealReopens(z, key, c, d, n, m); }
      }
    }
  }
}

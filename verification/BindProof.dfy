/** The one-time request proof (crates/wsnet-hub/src/bind.rs): its header and its signing input. */
module BindProof {
  import opened Limits
  import opened Text
  import F = SignedFields

  // ---- the header ------------------------------------------------------------

  datatype Proof = Proof(sessionId: Bytes, channelId: Bytes, bindNonce: Bytes, expiresAt: int, mac: Bytes)

  datatype Name = Version | Sid | Channel | Nonce | Expires | Mac

  datatype Val = V1 | Raw(bytes: Bytes) | Secs(at: int)

  datatype Error =
    | MissingField(name: Name)
    | NotAPair
    | UnknownField
    | NotHex(name: Name)
    | WrongWidth(name: Name)
    | NotADecimal
    | UnsupportedVersion(version: string)
    | DuplicateField(name: Name)

  datatype Parsed = Ok(proof: Proof) | Err(error: Error)

  /** One `key=value` part as read, before it meets its slot. */
  datatype Item = Item(name: Name, val: Val) | Bad(error: Error)

  datatype Filled = Slots(slots: map<Name, Val>) | Failed(error: Error)

  function Width(n: Name): nat { if n.Mac? then 32 else 16 }

  /** The values a slot can hold. */
  predicate Holds(n: Name, v: Val)
  {
    match n
    case Version => v.V1?
    case Expires => v.Secs? && I64_MIN <= v.at <= I64_MAX
    case _ => v.Raw? && |v.bytes| == Width(n)
  }

  function ReadHex(n: Name, raw: string): Item
  {
    match Unhex(Trim(raw))
    case None => Bad(NotHex(n))
    case Some(b) => if |b| == Width(n) then Item(n, Raw(b)) else Bad(WrongWidth(n))
  }

  function ReadVersion(raw: string): Item
  {
    if Trim(raw) == "v1" then Item(Version, V1) else Bad(UnsupportedVersion(Trim(raw)))
  }

  function ReadExpiry(raw: string): Item
  {
    match ParseI64(Trim(raw))
    case None => Bad(NotADecimal)
    case Some(at) => Item(Expires, Secs(at))
  }

  function ReadPair(key: string, raw: string): (i: Item)
    ensures i.Item? ==> Holds(i.name, i.val)
  {
    if key == "v" || key == "version" then ReadVersion(raw)
    else if key == "sid" then ReadHex(Sid, raw)
    else if key == "channel" then ReadHex(Channel, raw)
    else if key == "nonce" then ReadHex(Nonce, raw)
    else if key == "expires" then ReadExpiry(raw)
    else if key == "mac" then ReadHex(Mac, raw)
    else Bad(UnknownField)
  }

  function ReadPart(part: string): (i: Item)
    ensures i.Item? ==> Holds(i.name, i.val)
  {
    match SplitOnce(part, '=')
    case None => Bad(NotAPair)
    case Some((key, raw)) => ReadPair(Trim(key), raw)
  }

  /** What a part says, by its key and its value with the white space taken off: an unknown key,
      or the key's own value read as its kind. */
  lemma PartReadsExactly(part: string, key: string, raw: string)
    requires SplitOnce(part, '=') == Some((key, raw))
    ensures var (k, v, i) := (Trim(key), Trim(raw), ReadPart(part));
            var hex := Unhex(v);
            && (k !in {"v", "version", "sid", "channel", "nonce", "expires", "mac"} <==> i == Bad(UnknownField))
            && (k in {"v", "version"} ==> i == if v == "v1" then Item(Version, V1) else Bad(UnsupportedVersion(v)))
            && (k == "expires" ==> i == match ParseI64(v) case None => Bad(NotADecimal) case Some(at) => Item(Expires, Secs(at)))
            && (k in {"sid", "channel", "nonce", "mac"} ==>
                  var n := if k == "sid" then Sid else if k == "channel" then Channel else if k == "nonce" then Nonce else Mac;
                  var width := if k == "mac" then 32 else 16;
                  && (i == Bad(NotHex(n)) <==> hex.None?)
                  && (i == Bad(WrongWidth(n)) <==> hex.Some? && |hex.value| != width)
                  && (hex.Some? && |hex.value| == width ==> i == Item(n, Raw(hex.value))))
  {
  }

  predicate Typed(slots: map<Name, Val>) { forall n <- slots.Keys :: Holds(n, slots[n]) }

  /** Every slot but the version's is filled once. */
  function Place(slots: map<Name, Val>, item: Item): Filled
  {
    match item
    case Bad(e) => Failed(e)
    case Item(n, v) => if n in slots && n != Version then Failed(DuplicateField(n)) else Slots(slots[n := v])
  }

  function Fill(parts: seq<string>): (f: Filled)
    ensures f.Slots? ==> Typed(f.slots)
  {
    if parts == [] then Slots(map[])
    else
      var n := |parts| - 1;
      match Fill(parts[..n])
      case Failed(e) => Failed(e)
      case Slots(m) => Place(m, ReadPart(parts[n]))
  }

  function Finish(m: map<Name, Val>): Parsed
    requires Typed(m)
  {
    if Version !in m then Err(MissingField(Version))
    else if Sid !in m then Err(MissingField(Sid))
    else if Channel !in m then Err(MissingField(Channel))
    else if Nonce !in m then Err(MissingField(Nonce))
    else if Expires !in m then Err(MissingField(Expires))
    else if Mac !in m then Err(MissingField(Mac))
    else Ok(Proof(m[Sid].bytes, m[Channel].bytes, m[Nonce].bytes, m[Expires].at, m[Mac].bytes))
  }

  function ParseOf(value: string): Parsed
  {
    match Fill(Split(value, ';'))
    case Failed(e) => Err(e)
    case Slots(m) => Finish(m)
  }

  lemma {:induction false} FillFails(parts: seq<string>, i: nat)
    requires i <= |parts| && Fill(parts[..i]).Failed?
    ensures Fill(parts) == Fill(parts[..i])
    decreases |parts| - i
  {
    if i == |parts| {
      assert parts[..i] == parts;
    } else {
      assert parts[..i + 1][..i] == parts[..i];
      FillFails(parts, i + 1);
    }
  }

  /** The slot-filling loop. */
  method Parse(value: string) returns (r: Parsed)
    ensures r == ParseOf(value)
  {
    var parts := Split(value, ';');
    var slots: map<Name, Val> := map[];
    for i := 0 to |parts|
      invariant Typed(slots) && Fill(parts[..i]) == Slots(slots)
    {
      assert parts[..i + 1][..i] == parts[..i];
      match ReadPart(parts[i]) {
        case Bad(e) =>
          FillFails(parts, i + 1);
          return Err(e);
        case Item(n, v) =>
          if n in slots && n != Version {
            FillFails(parts, i + 1);
            return Err(DuplicateField(n));
          }
          slots := slots[n := v];
      }
    }
    assert parts[..|parts|] == parts;
    r := Finish(slots);
  }

  // ---- what a header says ----------------------------------------------------

  function ValOf(p: Proof, n: Name): Val
  {
    match n
    case Version => V1
    case Sid => Raw(p.sessionId)
    case Channel => Raw(p.channelId)
    case Nonce => Raw(p.bindNonce)
    case Expires => Secs(p.expiresAt)
    case Mac => Raw(p.mac)
  }

  predicate ValidProof(p: Proof)
  {
    && |p.sessionId| == |p.channelId| == |p.bindNonce| == 16 && |p.mac| == 32
    && I64_MIN <= p.expiresAt <= I64_MAX
  }

  /** Every part is readable, and no name but the version's occurs twice. */
  predicate Clean(parts: seq<string>)
  {
    && (forall i :: 0 <= i < |parts| ==> ReadPart(parts[i]).Item?)
    && forall i, j :: 0 <= i < j < |parts| && ReadPart(parts[i]).name == ReadPart(parts[j]).name ==>
         ReadPart(parts[i]).name == Version
  }

  /** Some part gives `n` the value `v`. */
  predicate Says(parts: seq<string>, n: Name, v: Val) { exists part <- parts :: ReadPart(part) == Item(n, v) }

  /** The header says exactly `p`, whatever the order, spacing or repetition of its version. */
  ghost predicate Describes(parts: seq<string>, p: Proof)
  {
    Clean(parts) && forall n: Name :: Says(parts, n, ValOf(p, n))
  }

  lemma SaysMore(parts: seq<string>, last: string, n: Name, v: Val)
    ensures Says(parts + [last], n, v) <==> Says(parts, n, v) || ReadPart(last) == Item(n, v)
  {
    if Says(parts, n, v) {
      var part :| part in parts && ReadPart(part) == Item(n, v);
      assert part in parts + [last];
    }
    assert last in parts + [last];
  }

  /** `last` may follow `parts`. */
  ghost predicate MayFollow(parts: seq<string>, last: string)
  {
    && ReadPart(last).Item?
    && (ReadPart(last).name == Version || forall v :: !Says(parts, ReadPart(last).name, v))
  }

  lemma CleanBefore(parts: seq<string>, last: string)
    requires Clean(parts + [last])
    ensures Clean(parts) && MayFollow(parts, last)
  {
    var all := parts + [last];
    assert all[|parts|] == last;
    assert forall i :: 0 <= i < |parts| ==> all[i] == parts[i];
  }

  lemma CleanAfter(parts: seq<string>, last: string)
    requires Clean(parts) && MayFollow(parts, last)
    ensures Clean(parts + [last])
  {
    var name := ReadPart(last).name;
    forall i | 0 <= i < |parts| ensures ReadPart(parts[i]).name == name ==> name == Version {
      assert parts[i] in parts;
      if ReadPart(parts[i]).name == name { assert Says(parts, name, ReadPart(parts[i]).val); }
    }
  }

  lemma {:induction false} FillReads(parts: seq<string>)
    ensures Fill(parts).Slots? <==> Clean(parts)
    ensures Fill(parts).Slots? ==>
              forall n: Name, v :: (n in Fill(parts).slots && Fill(parts).slots[n] == v) <==> Says(parts, n, v)
  {
    if parts != [] {
      var k := |parts| - 1;
      var before, last := parts[..k], parts[k];
      assert parts == before + [last];
      FillReads(before);
      if Clean(parts) { CleanBefore(before, last); }
      if Clean(before) && MayFollow(before, last) { CleanAfter(before, last); }
      if Fill(before).Slots? && ReadPart(last).Item? {
        var m, name := Fill(before).slots, ReadPart(last).name;
        assert name in m ==> Says(before, name, m[name]);
      }
      forall n: Name, v ensures Says(parts, n, v) <==> Says(before, n, v) || ReadPart(last) == Item(n, v) {
        SaysMore(before, last, n, v);
      }
    }
  }

  lemma FinishReads(m: map<Name, Val>, p: Proof)
    requires Typed(m)
    ensures Finish(m) == Ok(p) <==> forall n: Name :: n in m && m[n] == ValOf(p, n)
  {
    if Finish(m) == Ok(p) {
      assert Holds(Version, m[Version]) && Holds(Sid, m[Sid]) && Holds(Channel, m[Channel]);
      assert Holds(Nonce, m[Nonce]) && Holds(Expires, m[Expires]) && Holds(Mac, m[Mac]);
      forall n: Name ensures n in m && m[n] == ValOf(p, n) {
        match n case Version => case Sid => case Channel => case Nonce => case Expires => case Mac =>
      }
    }
  }

  lemma SlotsSay(parts: seq<string>, m: map<Name, Val>, p: Proof)
    requires forall n: Name, v :: (n in m && m[n] == v) <==> Says(parts, n, v)
    ensures (forall n: Name :: n in m && m[n] == ValOf(p, n)) <==> forall n: Name :: Says(parts, n, ValOf(p, n))
  {
    forall n: Name ensures (n in m && m[n] == ValOf(p, n)) <==> Says(parts, n, ValOf(p, n)) {}
  }

  /** A header is accepted as `p` exactly when it says `p`. */
  lemma ParsesExactlyWhatItSays(value: string, p: Proof)
    ensures ParseOf(value) == Ok(p) <==> Describes(Split(value, ';'), p)
  {
    var parts := Split(value, ';');
    FillReads(parts);
    if Fill(parts).Slots? {
      FinishReads(Fill(parts).slots, p);
      SlotsSay(parts, Fill(parts).slots, p);
    }
  }

  function Nth(i: nat): Name
  {
    match i case 0 => Version case 1 => Sid case 2 => Channel case 3 => Nonce case 4 => Expires case _ => Mac
  }

  // ---- what is wrong with a header -------------------------------------------

  /** Part `i` is the first that cannot follow those before it. */
  ghost predicate FirstFault(parts: seq<string>, i: nat)
  {
    i < |parts| && Clean(parts[..i]) && !MayFollow(parts[..i], parts[i])
  }

  function FaultOf(part: string): Error
  {
    match ReadPart(part)
    case Bad(e) => e
    case Item(n, _) => DuplicateField(n)
  }

  lemma {:induction false} FillFaults(parts: seq<string>, i: nat)
    requires FirstFault(parts, i)
    ensures Fill(parts) == Failed(FaultOf(parts[i]))
  {
    assert parts[..i + 1][..i] == parts[..i];
    FillReads(parts[..i]);
    var m := Fill(parts[..i]).slots;
    if ReadPart(parts[i]).Item? {
      var n := ReadPart(parts[i]).name;
      var v :| Says(parts[..i], n, v);
      assert n in m && m[n] == v;
    }
    FillFails(parts, i + 1);
  }

  lemma {:induction false} SomeFault(parts: seq<string>) returns (i: nat)
    requires !Clean(parts)
    ensures FirstFault(parts, i)
  {
    var n := |parts| - 1;
    if !Clean(parts[..n]) {
      i := SomeFault(parts[..n]);
      assert parts[..n][..i] == parts[..i];
    } else {
      i := n;
      assert parts == parts[..n] + [parts[n]];
      if MayFollow(parts[..n], parts[n]) { CleanAfter(parts[..n], parts[n]); }
    }
  }

  ghost predicate Silent(parts: seq<string>, n: Name) { forall v :: !Says(parts, n, v) }

  /** `Nth(k)` is the first name the header leaves out. */
  ghost predicate FirstGap(parts: seq<string>, k: nat) { Silent(parts, Nth(k)) && forall j: nat :: j < k ==> !Silent(parts, Nth(j)) }

  /** The error a header gets: that of its first part that is unreadable or repeats a name, or
      else the first name it leaves out, in the order version, session, channel, nonce, expiry,
      MAC. */
  lemma FaultsExactly(value: string, i: nat)
    ensures FirstFault(Split(value, ';'), i) ==> ParseOf(value) == Err(FaultOf(Split(value, ';')[i]))
  {
    if FirstFault(Split(value, ';'), i) { FillFaults(Split(value, ';'), i); }
  }

  lemma FirstMissing(m: map<Name, Val>) returns (k: nat)
    requires Typed(m) && Finish(m).Err?
    ensures k < 6 && Finish(m) == Err(MissingField(Nth(k))) && Nth(k) !in m && forall j: nat :: j < k ==> Nth(j) in m
  {
    k := if Version !in m then 0 else if Sid !in m then 1 else if Channel !in m then 2
         else if Nonce !in m then 3 else if Expires !in m then 4 else 5;
  }

  lemma SilentIsMissing(parts: seq<string>, m: map<Name, Val>)
    requires forall n: Name, v :: (n in m && m[n] == v) <==> Says(parts, n, v)
    ensures forall n: Name :: Silent(parts, n) <==> n !in m
  {
    forall n: Name ensures Silent(parts, n) <==> n !in m {
      if n in m { assert Says(parts, n, m[n]); }
    }
  }

  lemma NthDiffer(j: nat, k: nat)
    requires j < 6 && k < 6 && Nth(j) == Nth(k)
    ensures j == k
  {
  }

  lemma NothingMissing(m: map<Name, Val>, k: nat)
    requires Typed(m) && Finish(m).Ok? && k < 6
    ensures Nth(k) in m
  {
  }

  lemma FinishErrs(parts: seq<string>, m: map<Name, Val>, k: nat)
    requires k < 6 && Typed(m) && forall n: Name, v :: (n in m && m[n] == v) <==> Says(parts, n, v)
    ensures Finish(m) == Err(MissingField(Nth(k))) <==> FirstGap(parts, k)
  {
    SilentIsMissing(parts, m);
    if Finish(m).Err? {
      var j := FirstMissing(m);
      if Nth(j) == Nth(k) { NthDiffer(j, k); }
      assert FirstGap(parts, j);
      if FirstGap(parts, k) { assert j == k; }
    } else {
      NothingMissing(m, k);
    }
  }

  lemma GapsExactly(value: string, k: nat)
    requires k < 6 && Clean(Split(value, ';'))
    ensures ParseOf(value) == Err(MissingField(Nth(k))) <==> FirstGap(Split(value, ';'), k)
  {
    var parts := Split(value, ';');
    FillReads(parts);
    FinishErrs(parts, Fill(parts).slots, k);
  }

  /** A header that is refused has a fault or a gap. */
  lemma ErrsForAReason(value: string) returns (i: nat)
    requires ParseOf(value).Err?
    ensures FirstFault(Split(value, ';'), i) || (Clean(Split(value, ';')) && i < 6 && FirstGap(Split(value, ';'), i))
  {
    var parts := Split(value, ';');
    FillReads(parts);
    if !Clean(parts) {
      i := SomeFault(parts);
    } else {
      i := FirstMissing(Fill(parts).slots);
      SilentIsMissing(parts, Fill(parts).slots);
    }
  }

  // ---- the round trip --------------------------------------------------------

  function Pair(key: string, raw: string): string { key + ['='] + raw }

  function Parts(p: Proof): seq<string>
  {
    [Pair("v", "v1"), Pair("sid", Hex(p.sessionId)), Pair("channel", Hex(p.channelId)),
     Pair("nonce", Hex(p.bindNonce)), Pair("expires", Decimal(p.expiresAt)), Pair("mac", Hex(p.mac))]
  }

  function Join(parts: seq<string>): string
  {
    if parts == [] then "" else if |parts| == 1 then parts[0] else parts[0] + [';'] + Join(parts[1..])
  }

  function Encode(p: Proof): string { Join(Parts(p)) }

  lemma {:induction false} SplitJoin(parts: seq<string>)
    requires parts != [] && forall part <- parts :: ';' !in part
    ensures Split(Join(parts), ';') == parts
  {
    if |parts| == 1 {
      SplitWhole(parts[0], ';');
    } else {
      SplitCut(parts[0], ';', Join(parts[1..]));
      SplitJoin(parts[1..]);
    }
  }

  /** A part that can be split off and reads as the value `n` has in `p`. */
  predicate Renders(part: string, p: Proof, n: Name)
  {
    ';' !in part && ReadPart(part) == Item(n, ValOf(p, n))
  }

  lemma PairReads(key: string, raw: string)
    requires Plain(key) && '=' !in key && Plain(raw)
    ensures ReadPart(Pair(key, raw)) == ReadPair(key, raw) && Trim(raw) == raw && ';' !in Pair(key, raw)
  {
    SplitOnceCut(key, '=', raw);
    TrimPlain(key);
    TrimPlain(raw);
  }

  /** The key names a field of fixed width. */
  ghost predicate Names(key: string, n: Name)
  {
    Plain(key) && '=' !in key && forall raw :: ReadPair(key, raw) == ReadHex(n, raw)
  }

  lemma SidNames() ensures Names("sid", Sid) {}

  lemma ChannelNames() ensures Names("channel", Channel) {}

  lemma NonceNames() ensures Names("nonce", Nonce) {}

  lemma MacNames() ensures Names("mac", Mac) {}

  lemma HexRenders(key: string, b: Bytes, p: Proof, n: Name)
    requires Names(key, n) && |b| == Width(n) && ValOf(p, n) == Raw(b)
    ensures Renders(Pair(key, Hex(b)), p, n)
  {
    HexIsPlain(b);
    HexRoundTrip(b);
    PairReads(key, Hex(b));
    assert ReadPair(key, Hex(b)) == ReadHex(n, Hex(b));
  }

  lemma VersionRenders(p: Proof)
    ensures Renders(Parts(p)[0], p, Version)
  {
    PairReads("v", "v1");
  }

  lemma SidRenders(p: Proof)
    requires ValidProof(p)
    ensures Renders(Parts(p)[1], p, Sid)
  {
    SidNames();
    HexRenders("sid", p.sessionId, p, Sid);
  }

  lemma ChannelRenders(p: Proof)
    requires ValidProof(p)
    ensures Renders(Parts(p)[2], p, Channel)
  {
    ChannelNames();
    HexRenders("channel", p.channelId, p, Channel);
  }

  lemma NonceRenders(p: Proof)
    requires ValidProof(p)
    ensures Renders(Parts(p)[3], p, Nonce)
  {
    NonceNames();
    HexRenders("nonce", p.bindNonce, p, Nonce);
  }

  lemma ExpiresRenders(p: Proof)
    requires ValidProof(p)
    ensures Renders(Parts(p)[4], p, Expires)
  {
    DecimalRoundTrip(p.expiresAt);
    PairReads("expires", Decimal(p.expiresAt));
  }

  lemma MacRenders(p: Proof)
    requires ValidProof(p)
    ensures Renders(Parts(p)[5], p, Mac)
  {
    MacNames();
    HexRenders("mac", p.mac, p, Mac);
  }

  /** Six parts that render the six values of `p` in turn describe it. */
  lemma SixDescribe(s: seq<string>, p: Proof)
    requires |s| == 6 && forall i :: 0 <= i < 6 ==> Renders(s[i], p, Nth(i))
    ensures Describes(s, p)
  {
    assert forall i, j :: 0 <= i < j < 6 ==> Nth(i) != Nth(j);
    forall n: Name ensures Says(s, n, ValOf(p, n)) {
      var i := match n case Version => 0 case Sid => 1 case Channel => 2 case Nonce => 3 case Expires => 4 case Mac => 5;
      assert Renders(s[i], p, Nth(i)) && s[i] in s;
    }
  }

  lemma PartsDescribe(p: Proof)
    requires ValidProof(p)
    ensures Describes(Parts(p), p) && forall part <- Parts(p) :: ';' !in part
  {
    forall i | 0 <= i < 6 ensures Renders(Parts(p)[i], p, Nth(i)) {
      if i == 0 { VersionRenders(p); }
      else if i == 1 { SidRenders(p); }
      else if i == 2 { ChannelRenders(p); }
      else if i == 3 { NonceRenders(p); }
      else if i == 4 { ExpiresRenders(p); }
      else { MacRenders(p); }
    }
    SixDescribe(Parts(p), p);
  }

  /** Writing a proof and reading it back gives the proof, negative expiries included. */
  lemma RoundTrip(p: Proof)
    requires ValidProof(p)
    ensures ParseOf(Encode(p)) == Ok(p)
  {
    PartsDescribe(p);
    SplitJoin(Parts(p));
    ParsesExactlyWhatItSays(Encode(p), p);
  }

  /** Only well-formed proofs are ever read, so distinct proofs have distinct headers. */
  lemma ParsedIsValid(value: string, p: Proof)
    requires ParseOf(value) == Ok(p)
    ensures ValidProof(p) && ParseOf(Encode(p)) == ParseOf(value)
  {
    ParsesExactlyWhatItSays(value, p);
    var parts := Split(value, ';');
    forall n: Name ensures Holds(n, ValOf(p, n)) { assert Says(parts, n, ValOf(p, n)); }
    assert Holds(Sid, ValOf(p, Sid)) && Holds(Channel, ValOf(p, Channel)) && Holds(Nonce, ValOf(p, Nonce));
    assert Holds(Expires, ValOf(p, Expires)) && Holds(Mac, ValOf(p, Mac));
    RoundTrip(p);
  }

  // ---- the signing input -----------------------------------------------------

  datatype Target = Target(
    method_: Bytes, path: Bytes, hubId: Bytes,
    sessionId: Bytes, epoch: Bytes, channelId: Bytes, bindNonce: Bytes, bodyHash: Bytes,
    expiresAt: int)

  predicate ValidTarget(t: Target)
  {
    && |t.sessionId| == |t.epoch| == |t.channelId| == |t.bindNonce| == 16 && |t.bodyHash| == 32
    && |t.method_| < 0x1_0000_0000 && |t.path| < 0x1_0000_0000 && |t.hubId| < 0x1_0000_0000
    && t.expiresAt <= I64_MAX
  }

  function Ascii(s: string): Bytes { seq(|s|, i requires 0 <= i < |s| => (s[i] as int % 256) as byte) }

  function BindingFields(t: Target): seq<F.Field>
  {
    [F.Text(Ascii("body_hash")), F.Text(t.bodyHash),
     F.Text(Ascii("bind_nonce")), F.Text(t.bindNonce),
     F.Text(Ascii("channel_id")), F.Text(t.channelId),
     F.Text(Ascii("expires_at")), F.Word(8, Max(t.expiresAt, 0)),
     F.Text(Ascii("hub_id")), F.Text(t.hubId),
     F.Text(Ascii("method")), F.Text(t.method_),
     F.Text(Ascii("path")), F.Text(t.path),
     F.Text(Ascii("session_epoch")), F.Text(t.epoch),
     F.Text(Ascii("session_id")), F.Text(t.sessionId)]
  }

  function SigningInput(t: Target): Bytes { F.Encode(4, BindingFields(t)) }

  /** A target as its signature knows it: expiries before 1970 all read as 0. */
  function Signed(t: Target): Target { t.(expiresAt := Max(t.expiresAt, 0)) }

  lemma Powers()
    ensures F.Pow(4) == 0x1_0000_0000 && F.Pow(8) == U64_MAX + 1
  {
    assert F.Pow(1) == 256 && F.Pow(2) == 65_536 && F.Pow(3) == 0x100_0000;
    assert F.Pow(5) == 0x100_0000_0000 && F.Pow(6) == 0x1_0000_0000_0000;
  }

  lemma BindingFieldsFit(t: Target)
    requires ValidTarget(t)
    ensures F.AllFit(4, BindingFields(t))
  {
    Powers();
    var fs := BindingFields(t);
    assert |fs| == 18;
  }

  /** Two targets share a signing input exactly when they agree but for negative expiries. */
  lemma SigningInputIsInjective(t: Target, u: Target)
    requires ValidTarget(t) && ValidTarget(u)
    ensures SigningInput(t) == SigningInput(u) <==> Signed(t) == Signed(u)
  {
    BindingFieldsFit(t);
    BindingFieldsFit(u);
    var fs, gs := BindingFields(t), BindingFields(u);
    F.EncodingIsInjective(4, fs, gs);
    if fs == gs {
      assert fs[1] == gs[1] && fs[3] == gs[3] && fs[5] == gs[5] && fs[7] == gs[7] && fs[9] == gs[9];
      assert fs[11] == gs[11] && fs[13] == gs[13] && fs[15] == gs[15] && fs[17] == gs[17];
    }
  }

  /** Builds the signing input through the builder, field after field. */
  method BuildSigningInput(t: Target) returns (input: Bytes)
    requires I64_MIN <= t.expiresAt <= I64_MAX
    ensures input == SigningInput(t)
  {
    input := F.Build(BindingFields(t));
  }

  // ---- the fields, one by one ------------------------------------------------

  /** The names, in the order in which they are signed. */
  const NAMES: seq<string> := ["body_hash", "bind_nonce", "channel_id", "expires_at", "hub_id", "method", "path", "session_epoch", "session_id"]

  /** What is signed: each name in turn, */
  lemma NamesInTurn(t: Target, k: nat)
    requires k < 9
    ensures SigningInput(t) == F.Encode(4, BindingFields(t)) && |BindingFields(t)| == 18
    ensures BindingFields(t)[2 * k] == F.Text(Ascii(NAMES[k]))
  {
  }

  /** and behind it what it names, an expiry before 1970 as 0. */
  lemma ValuesInTurn(t: Target)
    ensures var f := BindingFields(t);
            && |f| == 18 && f[1] == F.Text(t.bodyHash) && f[3] == F.Text(t.bindNonce) && f[5] == F.Text(t.channelId)
            && f[7] == F.Word(8, if t.expiresAt < 0 then 0 else t.expiresAt) && f[9] == F.Text(t.hubId)
            && f[11] == F.Text(t.method_) && f[13] == F.Text(t.path) && f[15] == F.Text(t.epoch) && f[17] == F.Text(t.sessionId)
  {
  }
}

/** The text primitives the proof header is read and written with. */
module Text {
  import opened Limits

  // ---- splitting -------------------------------------------------------------

  function Split(s: string, sep: char): (parts: seq<string>)
    ensures |parts| > 0
  {
    if s == "" then [""]
    else
      var rest := Split(s[1..], sep);
      if s[0] == sep then [""] + rest else [[s[0]] + rest[0]] + rest[1..]
  }

  lemma {:induction false} SplitWhole(s: string, sep: char)
    requires sep !in s
    ensures Split(s, sep) == [s]
  {
    if s != "" {
      SplitWhole(s[1..], sep);
      assert [s[0]] + s[1..] == s;
    }
  }

  lemma {:induction false} SplitCut(s: string, sep: char, rest: string)
    requires sep !in s
    ensures Split(s + [sep] + rest, sep) == [s] + Split(rest, sep)
  {
    var whole := s + [sep] + rest;
    if s == "" {
      assert whole[1..] == rest;
    } else {
      assert whole[1..] == s[1..] + [sep] + rest;
      SplitCut(s[1..], sep, rest);
      assert [s[0]] + s[1..] == s;
      assert ([s[1..]] + Split(rest, sep))[1..] == Split(rest, sep);
    }
  }

  function SplitOnce(s: string, sep: char): Option<(string, string)>
  {
    if s == "" then None
    else if s[0] == sep then Some(("", s[1..]))
    else
      match SplitOnce(s[1..], sep)
      case None => None
      case Some((a, b)) => Some(([s[0]] + a, b))
  }

  lemma {:induction false} SplitOnceCut(s: string, sep: char, rest: string)
    requires sep !in s
    ensures SplitOnce(s + [sep] + rest, sep) == Some((s, rest))
  {
    var whole := s + [sep] + rest;
    if s == "" {
      assert whole[1..] == rest;
    } else {
      assert whole[1..] == s[1..] + [sep] + rest;
      SplitOnceCut(s[1..], sep, rest);
      assert [s[0]] + s[1..] == s;
    }
  }

  // ---- trimming --------------------------------------------------------------

  /** The Unicode `White_Space` property. */
  predicate White(c: char)
  {
    var u := c as int;
    || 0x9 <= u <= 0xD || u == 0x20 || u == 0x85 || u == 0xA0 || u == 0x1680
    || 0x2000 <= u <= 0x200A || u == 0x2028 || u == 0x2029 || u == 0x202F || u == 0x205F || u == 0x3000
  }

  function TrimStart(s: string): string
  {
    if s != "" && White(s[0]) then TrimStart(s[1..]) else s
  }

  function TrimEnd(s: string): string
  {
    if s != "" && White(s[|s| - 1]) then TrimEnd(s[..|s| - 1]) else s
  }

  function Trim(s: string): string { TrimEnd(TrimStart(s)) }

  predicate Blank(s: string) { forall i :: 0 <= i < |s| ==> White(s[i]) }

  lemma {:induction false} StartTrims(s: string) returns (i: nat)
    ensures i <= |s| && TrimStart(s) == s[i..] && Blank(s[..i])
    ensures TrimStart(s) != "" ==> !White(TrimStart(s)[0])
  {
    i := 0;
    if s != "" && White(s[0]) {
      var k := StartTrims(s[1..]);
      i := k + 1;
      var rest := s[1..];
      assert rest[k..] == s[i..];
      forall j | 0 <= j < i ensures White(s[..i][j]) { if j > 0 { assert s[j] == rest[..k][j - 1]; } }
    }
  }

  lemma {:induction false} EndTrims(s: string) returns (j: nat)
    ensures j <= |s| && TrimEnd(s) == s[..j] && Blank(s[j..])
    ensures TrimEnd(s) != "" ==> !White(TrimEnd(s)[|TrimEnd(s)| - 1])
  {
    j := |s|;
    if s != "" && White(s[|s| - 1]) {
      var rest := s[..|s| - 1];
      j := EndTrims(rest);
      assert rest[..j] == s[..j];
      forall k | 0 <= k < |s| - j ensures White(s[j..][k]) { if k < |rest| - j { assert s[j + k] == rest[j..][k]; } }
    }
  }

  /** Trimming takes white space off both ends, all of it, and nothing else. */
  lemma TrimsExactly(s: string) returns (i: nat, j: nat)
    ensures i <= j <= |s| && Trim(s) == s[i..j] && Blank(s[..i]) && Blank(s[j..])
    ensures Trim(s) != "" ==> !White(Trim(s)[0]) && !White(Trim(s)[|Trim(s)| - 1])
  {
    i := StartTrims(s);
    var k := EndTrims(s[i..]);
    j := i + k;
    assert s[j..] == s[i..][k..] && s[i..j] == s[i..][..k];
  }

  // ---- hexadecimal -----------------------------------------------------------

  function Digit(n: nat): char
    requires n < 16
  {
    if n < 10 then '0' + n as char else 'a' + (n - 10) as char
  }

  function Nibble(c: char): (n: Option<nat>)
    ensures n.Some? ==> n.value < 16
  {
    if '0' <= c <= '9' then Some((c - '0') as nat)
    else if 'a' <= c <= 'f' then Some((c - 'a') as nat + 10)
    else if 'A' <= c <= 'F' then Some((c - 'A') as nat + 10)
    else None
  }

  function Hex(b: Bytes): string
  {
    if b == [] then "" else [Digit(b[0] as nat / 16), Digit(b[0] as nat % 16)] + Hex(b[1..])
  }

  function Unhex(s: string): Option<Bytes>
  {
    if s == "" then Some([])
    else if |s| == 1 then None
    else
      match (Nibble(s[0]), Nibble(s[1]), Unhex(s[2..]))
      case (Some(h), Some(l), Some(rest)) => Some([(16 * h + l) as byte] + rest)
      case _ => None
  }

  lemma {:induction false} HexRoundTrip(b: Bytes)
    ensures Unhex(Hex(b)) == Some(b)
  {
    if b != [] {
      HexRoundTrip(b[1..]);
      assert Hex(b)[2..] == Hex(b[1..]);
      assert b == [b[0]] + b[1..];
    }
  }

  predicate HexDigit(c: char) { '0' <= c <= '9' || 'a' <= c <= 'f' || 'A' <= c <= 'F' }

  /** Hexadecimal text is read exactly when it is pairs of digits of either case. */
  lemma {:induction false} UnhexExactly(s: string)
    ensures Unhex(s).Some? <==> |s| % 2 == 0 && forall i :: 0 <= i < |s| ==> HexDigit(s[i])
    ensures Unhex(s).Some? ==> 2 * |Unhex(s).value| == |s|
  {
    if |s| > 1 {
      var rest := s[2..];
      UnhexExactly(rest);
      assert forall i :: 0 <= i < |rest| ==> rest[i] == s[i + 2];
      if forall i :: 0 <= i < |rest| ==> HexDigit(rest[i]) {
        forall i | 2 <= i < |s| ensures HexDigit(s[i]) { assert rest[i - 2] == s[i]; }
      }
      assert Unhex(s).Some? <==> HexDigit(s[0]) && HexDigit(s[1]) && Unhex(rest).Some?;
    }
  }

  lemma PairOfDigits(a: char, b: char, rest: string)
    ensures Unhex([a, b] + rest) == match (Nibble(a), Nibble(b), Unhex(rest))
                                    case (Some(h), Some(l), Some(tail)) => Some([(16 * h + l) as byte] + tail)
                                    case _ => None
  {
    assert ([a, b] + rest)[2..] == rest;
  }

  lemma HexOf(b: byte, rest: Bytes)
    ensures Hex([b] + rest) == [Digit(b as nat / 16), Digit(b as nat % 16)] + Hex(rest)
  {
    assert ([b] + rest)[1..] == rest;
  }

  lemma HexExamples()
    ensures Unhex("0aF9") == Some([10, 249]) && Hex([10, 249]) == "0af9"
  {
    PairOfDigits('F', '9', "");
    PairOfDigits('0', 'a', "F9");
    assert "F9" == ['F', '9'] + "" && "0aF9" == ['0', 'a'] + "F9";
    assert [10 as byte] + [249] == [10, 249] && [249 as byte] + [] == [249];
    HexOf(249, []);
    HexOf(10, [249]);
  }

  /** Neither a separator nor white space. */
  predicate Plain(s: string) { forall c <- s :: c != ';' && !White(c) }

  lemma {:induction false} HexIsPlain(b: Bytes)
    ensures Plain(Hex(b))
  {
    if b != [] { HexIsPlain(b[1..]); }
  }

  lemma TrimPlain(s: string)
    requires Plain(s)
    ensures Trim(s) == s
  {
    assert s != "" ==> s[0] in s && s[|s| - 1] in s;
  }

  // ---- decimal ---------------------------------------------------------------

  const I64_MIN: int := -0x8000_0000_0000_0000
  const I64_MAX: int := 0x7FFF_FFFF_FFFF_FFFF

  function Digits(n: nat): string
  {
    if n < 10 then [Digit(n)] else Digits(n / 10) + [Digit(n % 10)]
  }

  function Decimal(n: int): string { if n < 0 then "-" + Digits(-n) else Digits(n) }

  function DigitsValue(s: string): Option<nat>
  {
    if s == "" then Some(0)
    else
      var c := s[|s| - 1];
      match DigitsValue(s[..|s| - 1])
      case None => None
      case Some(v) => if '0' <= c <= '9' then Some(10 * v + (c - '0') as nat) else None
  }

  /** `str::parse::<i64>`: an optional sign, at least one digit, and a value in range. */
  function ParseI64(s: string): Option<int>
  {
    var signed := s != "" && (s[0] == '-' || s[0] == '+');
    var body := if signed then s[1..] else s;
    if body == "" then None
    else
      match DigitsValue(body)
      case None => None
      case Some(v) =>
        var n: int := if signed && s[0] == '-' then 0 - v else v;
        if I64_MIN <= n <= I64_MAX then Some(n) else None
  }

  lemma {:induction false} DigitsRoundTrip(n: nat)
    ensures DigitsValue(Digits(n)) == Some(n) && |Digits(n)| > 0
    ensures Plain(Digits(n)) && '0' <= Digits(n)[0] <= '9'
  {
    if n < 10 {
      assert Digits(n)[..0] == "" && DigitsValue("") == Some(0);
    } else {
      DigitsRoundTrip(n / 10);
      assert Digits(n)[..|Digits(n)| - 1] == Digits(n / 10);
    }
  }

  lemma MinusDigits(n: nat)
    requires n <= 0x8000_0000_0000_0000
    ensures ParseI64("-" + Digits(n)) == Some(0 - n) && Plain("-" + Digits(n))
  {
    DigitsRoundTrip(n);
    assert ("-" + Digits(n))[1..] == Digits(n);
  }

  lemma BareDigits(n: nat)
    requires n <= 0x7FFF_FFFF_FFFF_FFFF
    ensures ParseI64(Digits(n)) == Some(n) && Plain(Digits(n))
  {
    DigitsRoundTrip(n);
  }

  lemma DecimalRoundTrip(n: int)
    requires I64_MIN <= n <= I64_MAX
    ensures ParseI64(Decimal(n)) == Some(n) && Plain(Decimal(n))
  {
    if n < 0 { MinusDigits(-n); } else { BareDigits(n); }
  }

  predicate AllDigits(s: string) { forall i :: 0 <= i < |s| ==> '0' <= s[i] <= '9' }

  lemma {:induction false} DigitsRead(s: string)
    ensures DigitsValue(s).Some? <==> AllDigits(s)
  {
    if s != "" {
      var n := |s| - 1;
      DigitsRead(s[..n]);
      assert AllDigits(s) <==> AllDigits(s[..n]) && '0' <= s[n] <= '9';
    }
  }

  function Signed(s: string): bool { s != "" && s[0] in {'-', '+'} }

  /** A number is read exactly when it is digits behind at most one sign, and its value fits. */
  lemma ParseI64Exactly(s: string)
    ensures var body := if Signed(s) then s[1..] else s;
            match DigitsValue(body)
            case None => !AllDigits(body) && ParseI64(s) == None
            case Some(v) =>
              AllDigits(body)
              && var n: int := if Signed(s) && s[0] == '-' then 0 - v else v;
                 ParseI64(s) == if body != "" && -0x8000_0000_0000_0000 <= n <= 0x7FFF_FFFF_FFFF_FFFF then Some(n) else None
  {
    DigitsRead(if Signed(s) then s[1..] else s);
  }

  /** A plus sign changes nothing. */
  lemma PlusSign(n: nat)
    requires n <= 0x7FFF_FFFF_FFFF_FFFF
    ensures ParseI64("+" + Digits(n)) == Some(n)
  {
    DigitsRoundTrip(n);
    assert ("+" + Digits(n))[1..] == Digits(n);
  }
}

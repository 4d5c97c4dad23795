/** Base64 (section 4 of RFC 4648) as the program computes it: bit regrouping and a padding fix-up. */
module Base64 {
  import opened Wrappers

  /** Six bits, as three pairs; regrouping octets and sextets shifts by pairs. */
  datatype Sextet = Sextet(a: Crumb, b: Crumb, c: Crumb)

  const ZERO_BYTE := Byte(C0, C0, C0, C0)
  const ZERO_SEXTET := Sextet(C0, C0, C0)

  datatype Result<T> = Ok(value: T) | BadMessage

  // ----- the alphabet

  function Digit(c: Crumb): (n: int)
    ensures 0 <= n < 4
  {
    match c
    case C0 => 0
    case C1 => 1
    case C2 => 2
    case C3 => 3
  }

  function Number(v: Sextet): (n: int)
    ensures 0 <= n < 64
  {
    16 * Digit(v.a) + 4 * Digit(v.b) + Digit(v.c)
  }

  function SextetOf(n: int): (v: Sextet)
    requires 0 <= n < 64
    ensures Number(v) == n
  {
    var a := if n < 16 then C0 else if n < 32 then C1 else if n < 48 then C2 else C3;
    var m := n - 16 * Digit(a);
    var b := if m < 4 then C0 else if m < 8 then C1 else if m < 12 then C2 else C3;
    var k := m - 4 * Digit(b);
    Sextet(a, b, if k == 0 then C0 else if k == 1 then C1 else if k == 2 then C2 else C3)
  }

  lemma NumberIsOne(v: Sextet)
    ensures SextetOf(Number(v)) == v
  {
  }

  function Letter(v: Sextet): char
  {
    var n := Number(v);
    if n < 26 then 'A' + n as char
    else if n < 52 then 'a' + (n - 26) as char
    else if n < 62 then '0' + (n - 52) as char
    else if n == 62 then '+'
    else '/'
  }

  /** What the character iterator accepts; '=' reads as zero bits. */
  predicate Known(c: char)
  {
    'A' <= c <= 'Z' || 'a' <= c <= 'z' || '0' <= c <= '9' || c == '+' || c == '/' || c == '='
  }

  function Place(c: char): (n: int)
    requires Known(c)
    ensures 0 <= n < 64
  {
    if 'A' <= c <= 'Z' then (c - 'A') as int
    else if 'a' <= c <= 'z' then 26 + (c - 'a') as int
    else if '0' <= c <= '9' then 52 + (c - '0') as int
    else if c == '+' then 62
    else if c == '/' then 63
    else 0
  }

  function Value(c: char): Sextet
    requires Known(c)
  {
    SextetOf(Place(c))
  }

  lemma ValueOfLetter(v: Sextet)
    ensures Letter(v) != '=' && Known(Letter(v)) && Value(Letter(v)) == v
  {
    NumberIsOne(v);
  }

  lemma PaddingIsZero()
    ensures Known('=') && Value('=') == ZERO_SEXTET
  {
  }

  lemma LetterOfValue(c: char)
    requires Known(c) && c != '='
    ensures Letter(Value(c)) == c
  {
  }

  function Letters(ss: seq<Sextet>): (s: string)
    ensures |s| == |ss|
  {
    seq(|ss|, i requires 0 <= i < |ss| => Letter(ss[i]))
  }

  predicate AllKnown(s: string)
  {
    forall i :: 0 <= i < |s| ==> Known(s[i])
  }

  function Values(s: string): (ss: seq<Sextet>)
    requires AllKnown(s)
    ensures |ss| == |s|
  {
    seq(|s|, i requires 0 <= i < |s| => Value(s[i]))
  }

  // ----- regrouping of the bit string, three octets against four sextets

  function S0(x: Byte): Sextet { Sextet(x.a, x.b, x.c) }
  function S1(x: Byte, y: Byte): Sextet { Sextet(x.d, y.a, y.b) }
  function S2(y: Byte, z: Byte): Sextet { Sextet(y.c, y.d, z.a) }
  function S3(z: Byte): Sextet { Sextet(z.b, z.c, z.d) }

  function O0(p: Sextet, q: Sextet): Byte { Byte(p.a, p.b, p.c, q.a) }
  function O1(q: Sextet, r: Sextet): Byte { Byte(q.b, q.c, r.a, r.b) }
  function O2(r: Sextet, t: Sextet): Byte { Byte(r.c, t.a, t.b, t.c) }

  lemma GroupOfOctets(a: Byte, b: Byte, c: Byte)
    ensures O0(S0(a), S1(a, b)) == a && O1(S1(a, b), S2(b, c)) == b && O2(S2(b, c), S3(c)) == c
  {
  }

  lemma GroupOfSextets(p: Sextet, q: Sextet, r: Sextet, t: Sextet)
    ensures S0(O0(p, q)) == p && S1(O0(p, q), O1(q, r)) == q && S2(O1(q, r), O2(r, t)) == r && S3(O2(r, t)) == t
  {
  }

  /** Octets to sextets, the last group filled with zero bits. */
  function Sextets(bs: seq<Byte>): seq<Sextet>
  {
    if bs == [] then []
    else if |bs| == 1 then [S0(bs[0]), S1(bs[0], ZERO_BYTE)]
    else if |bs| == 2 then [S0(bs[0]), S1(bs[0], bs[1]), S2(bs[1], ZERO_BYTE)]
    else [S0(bs[0]), S1(bs[0], bs[1]), S2(bs[1], bs[2]), S3(bs[2])] + Sextets(bs[3..])
  }

  /** Sextets to octets; bits left over after the last whole octet are discarded. */
  function Octets(ss: seq<Sextet>): seq<Byte>
  {
    if ss == [] then []
    else if |ss| == 1 then []
    else if |ss| == 2 then [O0(ss[0], ss[1])]
    else if |ss| == 3 then [O0(ss[0], ss[1]), O1(ss[1], ss[2])]
    else [O0(ss[0], ss[1]), O1(ss[1], ss[2]), O2(ss[2], ss[3])] + Octets(ss[4..])
  }

  // ----- encode and decode

  /** How many '=' are appended: what is missing from a whole group. */
  function Pads(n: nat): (p: nat)
    ensures p < 3 && (n + p) % 3 == 0
    ensures p == if n % 3 == 0 then 0 else 3 - n % 3
  {
    (3 - n % 3) % 3
  }

  function Repeat<T>(x: T, n: nat): (s: seq<T>)
    ensures |s| == n && forall i :: 0 <= i < n ==> s[i] == x
  {
    seq(n, i => x)
  }

  function Encode(val: seq<Byte>): string
  {
    Letters(Sextets(val)) + Repeat('=', Pads(|val|))
  }

  /** The position of the first '=', or the length if there is none. */
  function FindPadding(s: string): (p: nat)
    ensures p <= |s|
    ensures forall i :: 0 <= i < p ==> s[i] != '='
    ensures p < |s| ==> s[p] == '='
  {
    if s == [] || s[0] == '=' then 0 else 1 + FindPadding(s[1..])
  }

  /**
   Bytes beyond the padding are cut off. `decoded.size() - (val.size() - padding)` wraps
   around when there are more characters from the first '=' on than bytes, and substr
   then keeps everything.
   */
  function Decode(val: string): Result<seq<Byte>>
  {
    if !AllKnown(val) then BadMessage
    else
      var decoded := Octets(Values(val));
      var padding := FindPadding(val);
      var cut := |val| - padding;
      if padding == |val| || |decoded| < cut then Ok(decoded) else Ok(decoded[..|decoded| - cut])
  }

  // ----- round trip

  lemma OctetsStep(p: Sextet, q: Sextet, r: Sextet, t: Sextet, rest: seq<Sextet>)
    ensures Octets([p, q, r, t] + rest) == [O0(p, q), O1(q, r), O2(r, t)] + Octets(rest)
  {
    assert ([p, q, r, t] + rest)[4..] == rest;
  }

  /** The four sextets of a group whose missing octets read as zero. */
  lemma {:induction false} OctetsOfGroup(a: Byte, b: Byte, c: Byte, rest: seq<Sextet>)
    ensures Octets([S0(a), S1(a, b), S2(b, c), S3(c)] + rest) == [a, b, c] + Octets(rest)
  {
    hide S0, S1, S2, S3, O0, O1, O2;
    OctetsStep(S0(a), S1(a, b), S2(b, c), S3(c), rest);
    GroupOfOctets(a, b, c);
  }

  lemma ZeroBits()
    ensures S2(ZERO_BYTE, ZERO_BYTE) == ZERO_SEXTET && S3(ZERO_BYTE) == ZERO_SEXTET
  {
  }

  lemma {:induction false} FillOfShort(a: Byte, b: Byte)
    ensures Sextets([a]) + [S2(ZERO_BYTE, ZERO_BYTE), S3(ZERO_BYTE)] == Sextets([a, ZERO_BYTE, ZERO_BYTE])
    ensures Sextets([a, b]) + [S3(ZERO_BYTE)] == Sextets([a, b, ZERO_BYTE])
  {
    hide S0, S1, S2, S3;
  }

  /** Filling with zero sextets is filling with zero octets. */
  lemma {:induction false} FillIsZeros(bs: seq<Byte>, fill: seq<Sextet>, zeros: seq<Byte>)
    requires fill == Repeat(ZERO_SEXTET, Pads(|bs|)) && zeros == Repeat(ZERO_BYTE, Pads(|bs|))
    ensures Sextets(bs) + fill == Sextets(bs + zeros)
    decreases |bs|
  {
    hide S0, S1, S2, S3;
    ZeroBits();
    if 3 <= |bs| {
      FillIsZeros(bs[3..], fill, zeros);
      assert (bs + zeros)[3..] == bs[3..] + zeros;
    } else if |bs| == 2 {
      FillOfShort(bs[0], bs[1]);
      assert bs == [bs[0], bs[1]] && bs + zeros == [bs[0], bs[1], ZERO_BYTE] && fill == [ZERO_SEXTET];
    } else if |bs| == 1 {
      FillOfShort(bs[0], ZERO_BYTE);
      assert bs == [bs[0]] && bs + zeros == [bs[0], ZERO_BYTE, ZERO_BYTE] && fill == [ZERO_SEXTET, ZERO_SEXTET];
    } else {
      assert bs + zeros == bs == [];
    }
  }

  lemma {:induction false} OctetsOfSextets(bs: seq<Byte>)
    requires |bs| % 3 == 0
    ensures Octets(Sextets(bs)) == bs
    decreases |bs|
  {
    hide S0, S1, S2, S3, O0, O1, O2;
    if bs != [] {
      OctetsOfSextets(bs[3..]);
      OctetsOfGroup(bs[0], bs[1], bs[2], Sextets(bs[3..]));
      assert bs == [bs[0], bs[1], bs[2]] + bs[3..];
    }
  }

  /** An encoding: letters without '=' and then the padding. */
  lemma EncodeShape(bs: seq<Byte>)
    ensures var s := Encode(bs);
      && |s| == |Sextets(bs)| + Pads(|bs|)
      && AllKnown(s)
      && Values(s) == Sextets(bs) + Repeat(ZERO_SEXTET, Pads(|bs|))
      && FindPadding(s) == |Sextets(bs)|
  {
    hide Letter, Known, Value, Sextets;
    var s := Encode(bs);
    PaddingIsZero();
    forall i | 0 <= i < |Sextets(bs)|
      ensures s[i] != '=' && Known(s[i]) && Value(s[i]) == Sextets(bs)[i]
    {
      ValueOfLetter(Sextets(bs)[i]);
    }
    assert Pads(|bs|) > 0 ==> s[|Sextets(bs)|] == '=';
    var p := FindPadding(s);
    assert p < |s| ==> s[p] == '=';
  }

  /** decode(encode(x)) is x, for every byte string. */
  lemma {:induction false} DecodeEncode(bs: seq<Byte>)
    ensures Decode(Encode(bs)) == Ok(bs)
  {
    hide Octets, Sextets;
    var zeros := Repeat(ZERO_BYTE, Pads(|bs|));
    EncodeShape(bs);
    FillIsZeros(bs, Repeat(ZERO_SEXTET, Pads(|bs|)), zeros);
    OctetsOfSextets(bs + zeros);
    assert (bs + zeros)[..|bs|] == bs;
    assert zeros == [] ==> bs + zeros == bs;
  }

  lemma {:induction false} SextetsLength(bs: seq<Byte>)
    ensures |Sextets(bs)| == |bs| / 3 * 4 + (if |bs| % 3 == 0 then 0 else |bs| % 3 + 1)
    decreases |bs|
  {
    if 3 <= |bs| {
      var rest := bs[3..];
      SextetsLength(rest);
      assert |Sextets(bs)| == 4 + |Sextets(rest)|;
    }
  }

  lemma EncodedLength(bs: seq<Byte>)
    ensures |Encode(bs)| == (|bs| + 2) / 3 * 4
  {
    SextetsLength(bs);
  }

  lemma {:induction false} SextetsConcat(a: seq<Byte>, b: seq<Byte>)
    requires |a| % 3 == 0
    ensures Sextets(a + b) == Sextets(a) + Sextets(b)
    decreases |a|
  {
    if a == [] {
      assert a + b == b;
    } else {
      var tail := a[3..];
      var whole := a + b;
      var group := [S0(a[0]), S1(a[0], a[1]), S2(a[1], a[2]), S3(a[2])];
      assert whole[3..] == tail + b;
      calc {
        Sextets(whole);
        group + Sextets(tail + b);
        { SextetsConcat(tail, b); }
        group + (Sextets(tail) + Sextets(b));
        (group + Sextets(tail)) + Sextets(b);
        Sextets(a) + Sextets(b);
      }
    }
  }

  lemma PadsConcat(m: nat, n: nat)
    requires m % 3 == 0
    ensures Pads(m) == 0 && Pads(m + n) == Pads(n)
  {
  }

  /** Cutting at a multiple of three bytes cuts the encoding. */
  lemma EncodeConcat(a: seq<Byte>, b: seq<Byte>)
    requires |a| % 3 == 0
    ensures Encode(a + b) == Encode(a) + Encode(b)
  {
    hide S0, S1, S2, S3, O0, O1, O2;
    SextetsConcat(a, b);
    PadsConcat(|a|, |b|);
    assert Letters(Sextets(a) + Sextets(b)) == Letters(Sextets(a)) + Letters(Sextets(b));
    assert Encode(a) == Letters(Sextets(a));
  }

  // ----- which texts survive decode and encode

  /** Four characters at a time, '=' only as the last one or two, unused bits zero. */
  predicate Canonical(s: string)
    decreases |s|
  {
    s == "" ||
    (4 <= |s| && Known(s[0]) && Known(s[1]) && Known(s[2]) && Known(s[3]) && s[0] != '=' && s[1] != '=' &&
     if s[2] == '=' then |s| == 4 && s[3] == '=' && Value(s[1]).b == Value(s[1]).c == C0
     else if s[3] == '=' then |s| == 4 && Value(s[2]).c == C0
     else Canonical(s[4..]))
  }

  /** One full group in front. */
  lemma EncodeGroup(bs: seq<Byte>)
    requires 3 <= |bs|
    ensures Encode(bs)
         == [Letter(S0(bs[0])), Letter(S1(bs[0], bs[1])), Letter(S2(bs[1], bs[2])), Letter(S3(bs[2]))] + Encode(bs[3..])
  {
    hide S0, S1, S2, S3, O0, O1, O2;
    assert bs == bs[..3] + bs[3..];
    EncodeConcat(bs[..3], bs[3..]);
    assert Sextets(bs[..3]) == [S0(bs[0]), S1(bs[0], bs[1]), S2(bs[1], bs[2]), S3(bs[2])];
    assert Encode(bs[..3])
        == [Letter(S0(bs[0])), Letter(S1(bs[0], bs[1])), Letter(S2(bs[1], bs[2])), Letter(S3(bs[2]))];
  }

  lemma {:induction false} EncodeIsCanonical(bs: seq<Byte>)
    ensures Canonical(Encode(bs))
    decreases |bs|
  {
    hide Letter, Known, Value;
    PaddingIsZero();
    if bs == [] {
    } else if |bs| == 1 {
      ValueOfLetter(S0(bs[0]));
      ValueOfLetter(S1(bs[0], ZERO_BYTE));
      assert Encode(bs) == [Letter(S0(bs[0])), Letter(S1(bs[0], ZERO_BYTE)), '=', '='];
    } else if |bs| == 2 {
      ValueOfLetter(S0(bs[0]));
      ValueOfLetter(S1(bs[0], bs[1]));
      ValueOfLetter(S2(bs[1], ZERO_BYTE));
      assert Encode(bs) == [Letter(S0(bs[0])), Letter(S1(bs[0], bs[1])), Letter(S2(bs[1], ZERO_BYTE)), '='];
    } else {
      EncodeIsCanonical(bs[3..]);
      EncodeGroup(bs);
      ValueOfLetter(S0(bs[0]));
      ValueOfLetter(S1(bs[0], bs[1]));
      ValueOfLetter(S2(bs[1], bs[2]));
      ValueOfLetter(S3(bs[2]));
      assert Encode(bs)[4..] == Encode(bs[3..]);
    }
  }

  /** The bytes a canonical text stands for. */
  function Meaning(s: string): seq<Byte>
    requires Canonical(s)
    decreases |s|
  {
    if s == "" then []
    else if s[2] == '=' then [O0(Value(s[0]), Value(s[1]))]
    else if s[3] == '=' then [O0(Value(s[0]), Value(s[1])), O1(Value(s[1]), Value(s[2]))]
    else [O0(Value(s[0]), Value(s[1])), O1(Value(s[1]), Value(s[2])), O2(Value(s[2]), Value(s[3]))] + Meaning(s[4..])
  }

  lemma {:induction false} EncodeShort(a: Byte, b: Byte)
    ensures Encode([a]) == [Letter(S0(a)), Letter(S1(a, ZERO_BYTE)), '=', '=']
    ensures Encode([a, b]) == [Letter(S0(a)), Letter(S1(a, b)), Letter(S2(b, ZERO_BYTE)), '=']
  {
    hide S0, S1, S2;
  }

  /** The groups at the end of a canonical text, whose unused bits are zero. */
  lemma GroupOfShort(p: Sextet, q: Sextet, r: Sextet)
    ensures q.b == q.c == C0 ==> S0(O0(p, q)) == p && S1(O0(p, q), ZERO_BYTE) == q
    ensures r.c == C0 ==> S2(O1(q, r), ZERO_BYTE) == r
  {
  }

  lemma {:induction false} EncodeThree(p: Sextet, q: Sextet, r: Sextet, t: Sextet, rest: seq<Byte>)
    ensures Encode([O0(p, q), O1(q, r), O2(r, t)] + rest) == [Letter(p), Letter(q), Letter(r), Letter(t)] + Encode(rest)
  {
    GroupOfSextets(p, q, r, t);
    var bs := [O0(p, q), O1(q, r), O2(r, t)] + rest;
    EncodeGroup(bs);
    assert bs[3..] == rest;
  }

  lemma {:induction false} CanonicalIsEncoded(s: string)
    requires Canonical(s)
    ensures Encode(Meaning(s)) == s
    decreases |s|
  {
    hide S0, S1, S2, S3, O0, O1, O2, Letter, Value, Known, Encode;
    if s == "" {
      EncodedLength([]);
    } else {
      var p, q, r, t := Value(s[0]), Value(s[1]), Value(s[2]), Value(s[3]);
      LetterOfValue(s[0]);
      LetterOfValue(s[1]);
      if s[2] == '=' {
        EncodeShort(O0(p, q), ZERO_BYTE);
        GroupOfShort(p, q, ZERO_SEXTET);
        assert s == [s[0], s[1], '=', '='];
      } else if s[3] == '=' {
        LetterOfValue(s[2]);
        EncodeShort(O0(p, q), O1(q, r));
        GroupOfSextets(p, q, r, ZERO_SEXTET);
        GroupOfShort(p, q, r);
        assert s == [s[0], s[1], s[2], '='];
      } else {
        LetterOfValue(s[2]);
        LetterOfValue(s[3]);
        var rest := s[4..];
        calc {
          Encode(Meaning(s));
          Encode([O0(p, q), O1(q, r), O2(r, t)] + Meaning(rest));
          { EncodeThree(p, q, r, t, Meaning(rest)); }
          [s[0], s[1], s[2], s[3]] + Encode(Meaning(rest));
          { CanonicalIsEncoded(rest); }
          [s[0], s[1], s[2], s[3]] + rest;
          s;
        }
      }
    }
  }

  /** A text is what its decoding encodes to exactly when it is canonical padded base64. */
  lemma EncodeDecode(s: string)
    ensures (Decode(s).Ok? && Encode(Decode(s).value) == s) <==> Canonical(s)
  {
    if Canonical(s) {
      CanonicalIsEncoded(s);
      DecodeEncode(Meaning(s));
    }
    if Decode(s).Ok? {
      EncodeIsCanonical(Decode(s).value);
    }
  }
}

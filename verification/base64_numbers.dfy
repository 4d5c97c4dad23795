/** The encoding in numbers, as section 4 of RFC 4648 has it: a table of letters, and 24 bits at a time. */
module Base64Numbers {
  import opened Wrappers
  import opened Base64

  const UPPER := "ABCDEFGHIJKLMNOPQRSTUVWXYZ"
  const LOWER := "abcdefghijklmnopqrstuvwxyz"
  const DIGITS := "0123456789"
  const ALPHABET := UPPER + LOWER + DIGITS + "+/"

  lemma LettersInOrder(n: int)
    requires 0 <= n < 26
    ensures UPPER[n] == 'A' + n as char && LOWER[n] == 'a' + n as char
  {
  }

  lemma DigitsInOrder(n: int)
    requires 0 <= n < 10
    ensures DIGITS[n] == '0' + n as char
  {
  }

  lemma LetterIsInTheTable(v: Sextet)
    ensures |ALPHABET| == 64 && Letter(v) == ALPHABET[Number(v)]
  {
    hide Number;
    var n := Number(v);
    if n < 26 {
      LettersInOrder(n);
    } else if n < 52 {
      LettersInOrder(n - 26);
    } else if n < 62 {
      DigitsInOrder(n - 52);
    }
  }

  /** The value of an octet. */
  function Octet(x: Byte): (n: int)
    ensures 0 <= n < 256
  {
    64 * Digit(x.a) + 16 * Digit(x.b) + 4 * Digit(x.c) + Digit(x.d)
  }

  /** Three octets and four sextets are the same number. */
  lemma SameNumber(x: Byte, y: Byte, z: Byte)
    ensures 65536 * Octet(x) + 256 * Octet(y) + Octet(z)
         == 262144 * Number(S0(x)) + 4096 * Number(S1(x, y)) + 64 * Number(S2(y, z)) + Number(S3(z))
  {
    hide Digit;
  }

  /** The k-th byte, or zero bits behind the end. */
  function At(bs: seq<Byte>, k: nat): Byte
  {
    if k < |bs| then bs[k] else ZERO_BYTE
  }

  /** The four characters of the i-th group. */
  lemma {:induction false} GroupOfLetters(bs: seq<Byte>, i: nat)
    requires 3 * i < |bs|
    ensures var s := Encode(bs); var x, y, z := At(bs, 3 * i), At(bs, 3 * i + 1), At(bs, 3 * i + 2);
      && 4 * i + 4 <= |s| && s[4 * i] == Letter(S0(x)) && s[4 * i + 1] == Letter(S1(x, y))
      && s[4 * i + 2] == (if 3 * i + 1 < |bs| then Letter(S2(y, z)) else '=')
      && s[4 * i + 3] == (if 3 * i + 2 < |bs| then Letter(S3(z)) else '=')
    decreases i
  {
    hide Letter, Encode, S0, S1, S2, S3;
    EncodedLength(bs);
    if |bs| < 3 {
      EncodeShort(bs[0], At(bs, 1));
      assert bs == if |bs| == 1 then [bs[0]] else [bs[0], bs[1]];
    } else {
      EncodeGroup(bs);
      if i > 0 {
        GroupOfLetters(bs[3..], i - 1);
        BehindTheFirst(bs, i);
      }
    }
  }

  lemma BehindTheFirst(bs: seq<Byte>, i: nat)
    requires 0 < i && 3 * i < |bs|
    ensures At(bs[3..], 3 * (i - 1)) == At(bs, 3 * i) && At(bs[3..], 3 * (i - 1) + 1) == At(bs, 3 * i + 1)
      && At(bs[3..], 3 * (i - 1) + 2) == At(bs, 3 * i + 2)
    ensures var tail := Encode(bs[3..]);
      forall k :: 4 <= k < |tail| + 4 ==> k < |Encode(bs)| && Encode(bs)[k] == tail[k - 4]
  {
    hide Letter, Encode;
    EncodeGroup(bs);
  }

  /** The numbers of the letters, put together, are the number of the octets; '=' stands where there is none. */
  ghost predicate Spells(s: string, i: nat, n: int, octets: nat)
  {
    exists p, q, r, t ::
      && 0 <= p < 64 && 0 <= q < 64 && 0 <= r < 64 && 0 <= t < 64 && n == 262144 * p + 4096 * q + 64 * r + t
      && 4 * i + 4 <= |s| && s[4 * i] == ALPHABET[p] && s[4 * i + 1] == ALPHABET[q]
      && s[4 * i + 2] == (if 2 <= octets then ALPHABET[r] else '=')
        && s[4 * i + 3] == (if 3 <= octets then ALPHABET[t] else '=')
  }

  /** Every group of an encoding spells its octets. */
  lemma EncodingSpellsTheOctets(bs: seq<Byte>, i: nat)
    requires 3 * i < |bs|
    ensures Spells(Encode(bs), i, 65536 * Octet(At(bs, 3 * i)) + 256 * Octet(At(bs, 3 * i + 1)) + Octet(At(bs,
        3 * i + 2)),
                   |bs| - 3 * i)
  {
    hide Letter, Encode, S0, S1, S2, S3, Number, Octet;
    var x, y, z := At(bs, 3 * i), At(bs, 3 * i + 1), At(bs, 3 * i + 2);
    GroupOfLetters(bs, i);
    SameNumber(x, y, z);
    LetterIsInTheTable(S0(x));
    LetterIsInTheTable(S1(x, y));
    LetterIsInTheTable(S2(y, z));
    LetterIsInTheTable(S3(z));
    var p, q, r, t := Number(S0(x)), Number(S1(x, y)), Number(S2(y, z)), Number(S3(z));
    assert Encode(bs)[4 * i] == ALPHABET[p];
  }

  // ----- decoding

  lemma {:induction false} KnownIsInTheTable(c: char)
    ensures Known(c) <==> c in ALPHABET || c == '='
    ensures Known(c) && c != '=' ==> ALPHABET[Number(Value(c))] == c
  {
    if Known(c) && c != '=' {
      LetterOfValue(c);
      LetterIsInTheTable(Value(c));
      assert c == ALPHABET[Number(Value(c))];
    }
    if c in ALPHABET {
      var n :| 0 <= n < |ALPHABET| && ALPHABET[n] == c;
      ValueOfLetter(SextetOf(n));
      LetterIsInTheTable(SextetOf(n));
    }
  }

  /** Decoding fails exactly on a character that is neither a letter nor '='. */
  lemma DecodingFailsExactlyWhen(s: string)
    ensures Decode(s).BadMessage? <==> exists i :: 0 <= i < |s| && s[i] !in ALPHABET && s[i] != '='
  {
    forall i | 0 <= i < |s| ensures Known(s[i]) <==> s[i] in ALPHABET || s[i] == '=' {
      KnownIsInTheTable(s[i]);
    }
  }

  function SextetAt(ss: seq<Sextet>, k: nat): int
  {
    if k < |ss| then Number(ss[k]) else 0
  }

  function OctetAt(bs: seq<Byte>, k: nat): int
  {
    if k < |bs| then Octet(bs[k]) else 0
  }

  /** A group of up to four sextets is a group of up to three octets, up to bits that do not fill an octet. */
  ghost predicate SpelledBack(ss: seq<Sextet>, i: nat, out: seq<Byte>)
  {
    var n := 262144 * SextetAt(ss, 4 * i) + 4096 * SextetAt(ss, 4 * i + 1) + 64 * SextetAt(ss, 4 * i + 2) + SextetAt(ss,
        4 * i + 3);
    var m := 65536 * OctetAt(out, 3 * i) + 256 * OctetAt(out, 3 * i + 1) + OctetAt(out, 3 * i + 2);
    var left := if |ss| - 4 * i == 2 then 65536 else if |ss| - 4 * i == 3 then 256 else 1;
    m <= n < m + left
  }

  lemma FirstGroupBack(ss: seq<Sextet>)
    requires 1 < |ss|
    ensures SpelledBack(ss, 0, Octets(ss))
  {
    hide Octet, Number, O0, O1, O2;
    OctetsLength(ss);
    if |ss| == 2 {
      TwoBack(ss[0], ss[1]);
    } else if |ss| == 3 {
      TwoBack(ss[0], ss[1]);
      ThreeBack(ss[1], ss[2]);
    } else {
      FourBack(ss[0], ss[1], ss[2], ss[3]);
    }
  }

  lemma TwoBack(p: Sextet, q: Sextet)
    ensures 4 * Number(p) <= Octet(O0(p, q)) && 16 * Octet(O0(p, q)) <= 64 * Number(p) + Number(q) < 16 * Octet(O0(p,
        q)) + 16
  {
    hide Digit;
  }

  lemma ThreeBack(q: Sextet, r: Sextet)
    ensures forall p :: var m := 1024 * Octet(O0(p, q)) + 4 * Octet(O1(q, r));
      m <= 4096 * Number(p) + 64 * Number(q) + Number(r) < m + 4
  {
    hide Digit;
  }

  lemma FourBack(p: Sextet, q: Sextet, r: Sextet, t: Sextet)
    ensures 262144 * Number(p) + 4096 * Number(q) + 64 * Number(r) + Number(t)
         == 65536 * Octet(O0(p, q)) + 256 * Octet(O1(q, r)) + Octet(O2(r, t))
  {
    hide Digit;
  }

  lemma {:induction false} OctetsSpellTheSextets(ss: seq<Sextet>, i: nat)
    requires 4 * i + 1 < |ss|
    ensures SpelledBack(ss, i, Octets(ss)) && |Octets(ss)| == |ss| * 3 / 4
    decreases i
  {
    hide Octet, Number, O0, O1, O2, SpelledBack;
    OctetsLength(ss);
    if i == 0 {
      FirstGroupBack(ss);
    } else {
      OctetsSpellTheSextets(ss[4..], i - 1);
      LaterGroupBack(ss, i);
    }
  }

  lemma OneGroupFurther(ss: seq<Sextet>, k: nat)
    requires 4 <= |ss|
    ensures SextetAt(ss[4..], k) == SextetAt(ss, k + 4) && OctetAt(Octets(ss[4..]), k) == OctetAt(Octets(ss), k + 3)
  {
    hide Octet, Number, O0, O1, O2;
    assert Octets(ss) == [O0(ss[0], ss[1]), O1(ss[1], ss[2]), O2(ss[2], ss[3])] + Octets(ss[4..]);
  }

  lemma LaterGroupBack(ss: seq<Sextet>, i: nat)
    requires 0 < i && 4 * i + 1 < |ss| && SpelledBack(ss[4..], i - 1, Octets(ss[4..]))
    ensures SpelledBack(ss, i, Octets(ss))
  {
    hide SextetAt, OctetAt, Octets;
    var j, k := 4 * (i - 1), 3 * (i - 1);
    OneGroupFurther(ss, j);
    OneGroupFurther(ss, j + 1);
    OneGroupFurther(ss, j + 2);
    OneGroupFurther(ss, j + 3);
    OneGroupFurther(ss, k);
    OneGroupFurther(ss, k + 1);
    OneGroupFurther(ss, k + 2);
  }

  lemma {:induction false} OctetsLength(ss: seq<Sextet>)
    ensures |Octets(ss)| == |ss| * 3 / 4
    decreases |ss|
  {
    if 4 <= |ss| {
      OctetsLength(ss[4..]);
    }
  }

  /** As many octets are cut off as there are characters from the first '=' on; none if that is more than there are. */
  lemma DecodingCuts(s: string)
    requires Decode(s).Ok?
    ensures AllKnown(s) && Decode(s).value <= Octets(Values(s))
    ensures var all, padding := |s| * 3 / 4, |s| - FindPadding(s);
      |Decode(s).value| == if padding <= all then all - padding else all
  {
    OctetsLength(Values(s));
  }
}

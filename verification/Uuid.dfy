/** UUID version 7: a 48-bit millisecond timestamp, then random bits, printed in hexadecimal. */
module Uuid {
  import opened Outcomes

  type Byte = b: int | 0 <= b < 256

  const TIMESTAMP_LIMIT: int := 0x1_0000_0000_0000

  function Pow256(k: nat): nat
  {
    if k == 0 then 1 else 256 * Pow256(k - 1)
  }

  // ----- Bytes and digits

  /** The `k` low bytes of a number, most significant first. */
  function BytesBE(n: nat, k: nat): (s: seq<Byte>)
    ensures |s| == k
  {
    if k == 0 then [] else BytesBE(n / 256, k - 1) + [n % 256]
  }

  const DIGITS: string := "0123456789abcdef"

  function Digit(d: int): char
    requires 0 <= d < 16
  {
    DIGITS[d]
  }

  function DigitValue(c: char): int
  {
    if '0' <= c <= '9' then c as int - '0' as int else c as int - 'a' as int + 10
  }

  lemma DigitsAscend(d: int, e: int)
    requires 0 <= d < 16 && 0 <= e < 16
    ensures DigitValue(Digit(d)) == d
    ensures Digit(d) < Digit(e) <==> d < e
  {
  }

  function Hex(bytes: seq<Byte>): (s: string)
    ensures |s| == 2 * |bytes|
  {
    if bytes == [] then ""
    else
      var last := bytes[|bytes| - 1];
      Hex(bytes[..|bytes| - 1]) + [Digit(last / 16), Digit(last % 16)]
  }

  /** The number a string of hexadecimal digits stands for. */
  function Value(s: string): int
  {
    if s == "" then 0 else 16 * Value(s[..|s| - 1]) + DigitValue(s[|s| - 1])
  }

  predicate IsHexDigit(c: char)
  {
    '0' <= c <= '9' || 'a' <= c <= 'f'
  }

  ghost predicate IsHex(s: string)
  {
    forall i :: 0 <= i < |s| ==> IsHexDigit(s[i])
  }

  /** On lower-case digits, character order is numeric order. */
  lemma DigitOrder(c: char, d: char)
    requires IsHexDigit(c) && IsHexDigit(d)
    ensures 0 <= DigitValue(c) < 16
    ensures DigitValue(c) < DigitValue(d) <==> c < d
    ensures DigitValue(c) == DigitValue(d) <==> c == d
  {
  }

  lemma {:induction false} HexIsHex(bytes: seq<Byte>)
    ensures IsHex(Hex(bytes))
  {
    if bytes == [] {
    } else {
      HexIsHex(bytes[..|bytes| - 1]);
      var last := bytes[|bytes| - 1];
      DigitIsHex(last / 16);
      DigitIsHex(last % 16);
    }
  }

  lemma DigitIsHex(d: int)
    requires 0 <= d < 16
    ensures IsHexDigit(Digit(d))
  {
  }

  lemma {:induction false} HexAt(bytes: seq<Byte>, i: nat)
    requires i < |bytes|
    ensures Hex(bytes)[2 * i] == Digit(bytes[i] / 16) && Hex(bytes)[2 * i + 1] == Digit(bytes[i] % 16)
  {
    if i == |bytes| - 1 {
    } else {
      HexAt(bytes[..|bytes| - 1], i);
    }
  }

  lemma ValueAppend(s: string, c: char)
    ensures Value(s + [c]) == 16 * Value(s) + DigitValue(c)
  {
    assert (s + [c])[..|s|] == s;
  }

  /** Two digits append a byte. */
  lemma ValueOfByte(s: string, b: Byte)
    ensures Value(s + [Digit(b / 16), Digit(b % 16)]) == 256 * Value(s) + b
  {
    var high, low := Digit(b / 16), Digit(b % 16);
    ValueAppend(s, high);
    ValueAppend(s + [high], low);
    assert (s + [high]) + [low] == s + [high, low];
    DigitsAscend(b / 16, b % 16);
    DigitsAscend(b % 16, b / 16);
  }

  lemma {:induction false} HexRoundTrip(n: nat, k: nat)
    requires n < Pow256(k)
    ensures Value(Hex(BytesBE(n, k))) == n
  {
    if k == 0 {
    } else {
      var bytes := BytesBE(n, k);
      assert bytes[..k - 1] == BytesBE(n / 256, k - 1);
      HexRoundTrip(n / 256, k - 1);
      ValueOfByte(Hex(bytes[..k - 1]), bytes[k - 1]);
    }
  }

  lemma HexInjective(a: seq<Byte>, b: seq<Byte>)
    requires |a| == |b| && Hex(a) == Hex(b)
    ensures a == b
  {
    forall i | 0 <= i < |a|
      ensures a[i] == b[i]
    {
      HexAt(a, i);
      HexAt(b, i);
      DigitsAscend(a[i] / 16, b[i] / 16);
      DigitsAscend(b[i] / 16, a[i] / 16);
      DigitsAscend(a[i] % 16, b[i] % 16);
      DigitsAscend(b[i] % 16, a[i] % 16);
    }
  }

  // ----- The identifier

  /** The random bytes with the version and variant bits set, RFC 9562 sections 4.1 and 5.7. */
  function Marked(rand: seq<Byte>): (r: seq<Byte>)
    requires |rand| == 10
    ensures |r| == 10
  {
    rand[0 := rand[0] % 16 + 0x70][2 := rand[2] % 64 + 0x80]
  }

  function Format(ms: string, random: string): string
    requires |ms| == 12 && |random| == 20
  {
    ms[..8] + "-" + ms[8..12] + "-" + random[..4] + "-" + random[4..8] + "-" + random[8..20]
  }

  /** Where each digit of the timestamp and of the random part is printed. */
  lemma FormatAt(ms: string, random: string, i: nat)
    requires |ms| == 12 && |random| == 20 && i < 36
    ensures |Format(ms, random)| == 36
    ensures Format(ms, random)[i]
      == if i < 8 then ms[i]
         else if i == 8 || i == 13 || i == 18 || i == 23 then '-'
         else if i < 13 then ms[i - 1]
         else if i < 18 then random[i - 14]
         else if i < 23 then random[i - 15]
         else random[i - 16]
  {
  }

  lemma FormatParts(ms: string, random: string)
    requires |ms| == 12 && |random| == 20
    ensures var f := Format(ms, random);
      |f| == 36 && f[..8] + f[9..13] == ms && f[14..18] + f[19..23] + f[24..36] == random
  {
    var f := Format(ms, random);
    FormatAt(ms, random, 0);
    forall i | 0 <= i < 12
      ensures (f[..8] + f[9..13])[i] == ms[i]
    {
      FormatAt(ms, random, if i < 8 then i else i + 1);
    }
    forall i | 0 <= i < 20
      ensures (f[14..18] + f[19..23] + f[24..36])[i] == random[i]
    {
      FormatAt(ms, random, if i < 4 then i + 14 else if i < 8 then i + 15 else i + 16);
    }
  }

  function Uuidv7(now: nat, rand: seq<Byte>): string
    requires now < TIMESTAMP_LIMIT && |rand| == 10
  {
    Format(Hex(BytesBE(now, 6)), Hex(Marked(rand)))
  }

  /** The random buffer as numbers. */
  function Numbers(bytes: seq<bv8>): (s: seq<Byte>)
    ensures |s| == |bytes|
  {
    seq(|bytes|, i requires 0 <= i < |bytes| => bytes[i] as int)
  }

  /** The two masks as arithmetic: the low bits are kept and the mark is set above them. */
  lemma MasksAreArithmetic(b: bv8)
    ensures ((b & 0x0f) | 0x70) as int == (b as int) % 16 + 0x70
    ensures ((b & 0x3f) | 0x80) as int == (b as int) % 64 + 0x80
  {
    assert ((b & 0x0f) | 0x70) == b % 16 + 0x70;
    assert ((b & 0x3f) | 0x80) == b % 64 + 0x80;
  }

  /** The generator: writes the timestamp into a buffer, marks the random buffer, prints both. */
  method Generate(now: int, rand: array<bv8>) returns (r: Outcome<string>)
    requires rand.Length == 10
    modifies rand
    ensures r.Ok? <==> 0 <= now < TIMESTAMP_LIMIT
    ensures r.Ok? ==>
      r.value == Uuidv7(now, Numbers(old(rand[..]))) && Numbers(rand[..]) == Marked(Numbers(old(rand[..])))
    ensures r.Thrown? ==> r.error == TimestampOutOfRange && rand[..] == old(rand[..])
  {
    if now < 0 || now >= TIMESTAMP_LIMIT {
      return Thrown(TimestampOutOfRange);
    }
    var msBytes := new Byte[6](_ => 0);
    WriteUIntBE(msBytes, now);
    SetMarks(rand);
    var msHex, randHex := Hex(msBytes[..]), Hex(Numbers(rand[..]));
    return Ok(msHex[..8] + "-" + msHex[8..12] + "-" + randHex[..4] + "-" + randHex[4..8] + "-" + randHex[8..20]);
  }

  method SetMarks(rand: array<bv8>)
    requires rand.Length == 10
    modifies rand
    ensures Numbers(rand[..]) == Marked(Numbers(old(rand[..])))
  {
    var byte0, byte2 := rand[0], rand[2];
    MasksAreArithmetic(byte0);
    MasksAreArithmetic(byte2);
    rand[0] := (byte0 & 0x0f) | 0x70;
    rand[2] := (byte2 & 0x3f) | 0x80;
  }

  method WriteUIntBE(buffer: array<Byte>, n: nat)
    modifies buffer
    ensures buffer[..] == BytesBE(n, buffer.Length)
  {
    var rest := n;
    var i := buffer.Length;
    while i > 0
      invariant 0 <= i <= buffer.Length
      invariant BytesBE(n, buffer.Length) == BytesBE(rest, i) + buffer[i..]
    {
      i := i - 1;
      buffer[i] := rest % 256;
      assert buffer[i..] == [buffer[i]] + buffer[i + 1..];
      rest := rest / 256;
    }
    assert buffer[0..] == buffer[..];
  }

  /** Every mark is in its place, whatever the random bytes: dashes, version 7, RFC variant. */
  lemma LayoutIsVersion7(now: nat, rand: seq<Byte>)
    requires now < TIMESTAMP_LIMIT && |rand| == 10
    ensures var id := Uuidv7(now, rand);
      && |id| == 36
      && id[8] == id[13] == id[18] == id[23] == '-'
      && id[14] == '7'
      && id[19] in "89ab"
  {
    var random := Hex(Marked(rand));
    HexAt(Marked(rand), 0);
    HexAt(Marked(rand), 2);
    assert Marked(rand)[0] / 16 == 7;
    assert 8 <= Marked(rand)[2] / 16 < 12;
    assert random[0] == '7';
    var d := Marked(rand)[2] / 16;
    assert random[4] == Digit(d);
    assert d == 8 || d == 9 || d == 10 || d == 11;
  }

  /** The 48-bit timestamp, read back from the text. */
  function TimestampOf(id: string): int
    requires |id| == 36
  {
    Value(id[..8] + id[9..13])
  }

  lemma SixBytes()
    ensures Pow256(6) == TIMESTAMP_LIMIT
  {
    assert Pow256(1) == 256;
    assert Pow256(2) == 0x1_0000;
    assert Pow256(3) == 0x100_0000;
    assert Pow256(4) == 0x1_0000_0000;
    assert Pow256(5) == 0x100_0000_0000;
  }

  lemma TimestampRoundTrip(now: nat, rand: seq<Byte>)
    requires now < TIMESTAMP_LIMIT && |rand| == 10
    ensures |Uuidv7(now, rand)| == 36 && TimestampOf(Uuidv7(now, rand)) == now
  {
    var id, ms := Uuidv7(now, rand), Hex(BytesBE(now, 6));
    FormatParts(ms, Hex(Marked(rand)));
    SixBytes();
    HexRoundTrip(now, 6);
  }

  /** Nothing else is lost: two ids are equal only if they share the millisecond and all 74 free bits. */
  lemma UuidIsInjective(now1: nat, rand1: seq<Byte>, now2: nat, rand2: seq<Byte>)
    requires now1 < TIMESTAMP_LIMIT && now2 < TIMESTAMP_LIMIT && |rand1| == |rand2| == 10
    ensures Uuidv7(now1, rand1) == Uuidv7(now2, rand2)
      <==> now1 == now2 && rand1[0] % 16 == rand2[0] % 16 && rand1[1] == rand2[1]
           && rand1[2] % 64 == rand2[2] % 64 && rand1[3..] == rand2[3..]
  {
    var m1, m2 := Marked(rand1), Marked(rand2);
    var id1, id2 := Uuidv7(now1, rand1), Uuidv7(now2, rand2);
    if id1 == id2 {
      TimestampRoundTrip(now1, rand1);
      TimestampRoundTrip(now2, rand2);
      FormatParts(Hex(BytesBE(now1, 6)), Hex(m1));
      FormatParts(Hex(BytesBE(now2, 6)), Hex(m2));
      HexInjective(m1, m2);
      assert m1[0] == m2[0] && m1[1] == m2[1] && m1[2] == m2[2];
      assert rand1[3..] == m1[3..] && rand2[3..] == m2[3..];
    }
    if now1 == now2 && rand1[0] % 16 == rand2[0] % 16 && rand1[1] == rand2[1]
      && rand1[2] % 64 == rand2[2] % 64 && rand1[3..] == rand2[3..] {
      forall i | 0 <= i < 10
        ensures m1[i] == m2[i]
      {
        assert i >= 3 ==> rand1[3..][i - 3] == rand2[3..][i - 3];
      }
      assert m1 == m2;
    }
  }

  // ----- Text order is time order

  /** The first place where two strings differ decides their order. */
  ghost predicate LessAt(a: string, b: string, k: nat)
  {
    k < |a| && k < |b| && a[..k] == b[..k] && a[k] < b[k]
  }

  lemma {:induction false} SameValueSameText(a: string, b: string)
    requires |a| == |b| && IsHex(a) && IsHex(b) && Value(a) == Value(b)
    ensures a == b
  {
    if a == "" {
    } else {
      var n := |a| - 1;
      DigitOrder(a[n], b[n]);
      DigitOrder(b[n], a[n]);
      SameValueSameText(a[..n], b[..n]);
      assert a == a[..n] + [a[n]] && b == b[..n] + [b[n]];
    }
  }

  /** Of two equally long hexadecimal strings, the smaller number comes first in text order. */
  lemma {:induction false} ValueOrderIsTextOrder(a: string, b: string) returns (k: nat)
    requires |a| == |b| && IsHex(a) && IsHex(b) && Value(a) < Value(b)
    ensures LessAt(a, b, k)
  {
    var n := |a| - 1;
    DigitOrder(a[n], b[n]);
    DigitOrder(b[n], a[n]);
    if Value(a[..n]) < Value(b[..n]) {
      k := ValueOrderIsTextOrder(a[..n], b[..n]);
      assert a[..k] == a[..n][..k] && b[..k] == b[..n][..k];
    } else {
      SameValueSameText(a[..n], b[..n]);
      k := n;
    }
  }

  /** Ids made in different milliseconds sort as text in the order they were made. */
  lemma LaterSortsLater(now1: nat, rand1: seq<Byte>, now2: nat, rand2: seq<Byte>)
    requires now1 < now2 < TIMESTAMP_LIMIT && |rand1| == |rand2| == 10
    ensures exists k: nat :: LessAt(Uuidv7(now1, rand1), Uuidv7(now2, rand2), k)
  {
    var a, b := Hex(BytesBE(now1, 6)), Hex(BytesBE(now2, 6));
    SixBytes();
    HexRoundTrip(now1, 6);
    HexRoundTrip(now2, 6);
    HexIsHex(BytesBE(now1, 6));
    HexIsHex(BytesBE(now2, 6));
    var k := ValueOrderIsTextOrder(a, b);
    FormatKeepsOrder(a, Hex(Marked(rand1)), b, Hex(Marked(rand2)), k);
    assert LessAt(Uuidv7(now1, rand1), Uuidv7(now2, rand2), if k < 8 then k else k + 1);
  }

  lemma FormatKeepsOrder(ms1: string, random1: string, ms2: string, random2: string, k: nat)
    requires |ms1| == |ms2| == 12 && |random1| == |random2| == 20
    requires LessAt(ms1, ms2, k)
    ensures LessAt(Format(ms1, random1), Format(ms2, random2), if k < 8 then k else k + 1)
  {
    var p := if k < 8 then k else k + 1;
    var f1, f2 := Format(ms1, random1), Format(ms2, random2);
    forall i: nat | i <= p
      ensures |f1| == |f2| == 36 && (i < p ==> f1[i] == f2[i])
    {
      FormatAt(ms1, random1, i);
      FormatAt(ms2, random2, i);
      var j := if i < 8 then i else i - 1;
      if i < p && i != 8 {
        assert ms1[..k][j] == ms2[..k][j];
      }
    }
    FormatAt(ms1, random1, p);
    FormatAt(ms2, random2, p);
  }
}

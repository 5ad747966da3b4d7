/**
 The variable-length integers of QUIC (section 16 of RFC 9000) as QuicSocket.cpp
 writes and reads them. Masks and shifts of unsigned words are written as
 remainders and quotients by powers of two.
 */
module QuicVarint {
  import opened Bytes

  const TWO62: nat := 0x4000_0000_0000_0000

  type uint64 = n: int | 0 <= n < 0x1_0000_0000_0000_0000

  datatype Decoded = Incomplete | Decoded(value: uint64, length: nat)

  function PutUVarIntLen(n: uint64): nat
  {
    if n < 64 then 1 else if n < 16384 then 2 else if n < 1073741824 then 4 else 8
  }

  function GetUVarIntLen(first: byte): nat
  {
    var tag := first / 64;
    if tag == 0 then 1 else if tag == 1 then 2 else if tag == 2 then 4 else 8
  }

  function Pow256(k: nat): (p: nat)
    ensures p > 0
  {
    if k == 0 then 1 else 256 * Pow256(k - 1)
  }

  /** The `width` low octets of `n`, most significant first. */
  function BigEndian(n: nat, width: nat): (bs: seq<byte>)
    ensures |bs| == width
  {
    if width == 0 then [] else BigEndian(n / 256, width - 1) + [(n % 256) as byte]
  }

  /** The number whose big-endian octets are `bs`. */
  function FromBigEndian(bs: seq<byte>): nat
  {
    if bs == [] then 0 else 256 * FromBigEndian(bs[..|bs| - 1]) + bs[|bs| - 1] as nat
  }

  /** The two top bits of the first octet: the base-two logarithm of the width. */
  function WidthTag(width: nat): byte
  {
    if width == 1 then 0 else if width == 2 then 1 else if width == 4 then 2 else 3
  }

  /** The low 62 bits of `n`, big-endian, with the width tag on top. */
  function Encode(n: uint64): (bs: seq<byte>)
    ensures |bs| == PutUVarIntLen(n)
  {
    var width := PutUVarIntLen(n);
    var body := BigEndian(n, width);
    [64 * WidthTag(width) + body[0] % 64] + body[1..]
  }

  /** What a reader makes of the octets at the front of `bs`. */
  function Decode(bs: seq<byte>): (d: Decoded)
    ensures d.Decoded? ==> 0 < d.length <= |bs| && d.length <= 8 && d.value < TWO62
  {
    if bs == [] then Incomplete
    else
      var len := GetUVarIntLen(bs[0]);
      if |bs| < len then Incomplete
      else
        TaggedValueBound(bs, len);
        Decoded(FromBigEndian([bs[0] % 64] + bs[1..len]), len)
  }

  // ----- big-endian numbers

  lemma {:induction false} LeadingDigit(a: byte, rest: seq<byte>)
    ensures FromBigEndian([a] + rest) == a as nat * Pow256(|rest|) + FromBigEndian(rest)
  {
    var bs := [a] + rest;
    if rest == [] {
      assert bs[..0] == [];
    } else {
      var front := rest[..|rest| - 1];
      assert bs[..|bs| - 1] == [a] + front;
      LeadingDigit(a, front);
    }
  }

  lemma {:induction false} FromBigEndianBound(bs: seq<byte>)
    ensures FromBigEndian(bs) < Pow256(|bs|)
  {
    if bs != [] {
      FromBigEndianBound(bs[..|bs| - 1]);
    }
  }

  lemma {:induction false} BigEndianInverse(n: nat, width: nat)
    requires n < Pow256(width)
    ensures FromBigEndian(BigEndian(n, width)) == n
  {
    if width > 0 {
      BigEndianInverse(n / 256, width - 1);
      var bs := BigEndian(n, width);
      assert bs[..|bs| - 1] == BigEndian(n / 256, width - 1);
    }
  }

  lemma Powers()
    ensures Pow256(0) == 1 && Pow256(1) == 256 && Pow256(2) == 0x1_0000
    ensures Pow256(3) == 0x100_0000 && Pow256(4) == 0x1_0000_0000
    ensures Pow256(5) == 0x100_0000_0000 && Pow256(6) == 0x1_0000_0000_0000
    ensures Pow256(7) == 0x100_0000_0000_0000 && Pow256(8) == 0x1_0000_0000_0000_0000
  {
  }

  lemma TaggedValueBound(bs: seq<byte>, len: nat)
    requires len in {1, 2, 4, 8} && len <= |bs|
    ensures FromBigEndian([bs[0] % 64] + bs[1..len]) < TWO62
  {
    var top: byte, rest := bs[0] % 64, bs[1..len];
    LeadingDigit(top, rest);
    FromBigEndianBound(rest);
    Powers();
  }

  // ----- the codec

  /**
   Reading back a written number gives its low 62 bits and the predicted length,
   whatever octets follow.
   */
  lemma DecodeEncode(n: uint64, suffix: seq<byte>)
    ensures Decode(Encode(n) + suffix) == Decoded(n % TWO62, PutUVarIntLen(n))
  {
    var width := PutUVarIntLen(n);
    var bs := Encode(n) + suffix;
    var low, rest := BigEndian(n, width)[0] % 64, BigEndian(n, width)[1..];
    assert bs[0] == 64 * WidthTag(width) + low;
    assert GetUVarIntLen(bs[0]) == width;
    assert [bs[0] % 64] + bs[1..width] == [low] + rest;
    EncodedValue(n);
  }

  lemma EncodedValue(n: uint64)
    ensures var body := BigEndian(n, PutUVarIntLen(n));
            FromBigEndian([body[0] % 64] + body[1..]) == n % TWO62
  {
    var width := PutUVarIntLen(n);
    var body := BigEndian(n, width);
    var rest := body[1..];
    assert n < Pow256(width) by {
      Powers();
    }
    BigEndianInverse(n, width);
    assert body == [body[0]] + rest;
    LeadingDigit(body[0], rest);
    LeadingDigit(body[0] % 64, rest);
    FromBigEndianBound(rest);
    Low62Bits(n, body[0] as nat, FromBigEndian(rest));
  }

  lemma Low62Bits(n: uint64, top: nat, rest: nat)
    requires top < 256
    requires n == top * Pow256(PutUVarIntLen(n) - 1) + rest
    requires rest < Pow256(PutUVarIntLen(n) - 1)
    ensures (top % 64) * Pow256(PutUVarIntLen(n) - 1) + rest == n % TWO62
  {
    Powers();
    var p := Pow256(PutUVarIntLen(n) - 1);
    assert p in {1, 0x100, 0x100_0000, 0x100_0000_0000_0000};
    if p == 0x100_0000_0000_0000 {
      assert n == TWO62 * (top / 64) + ((top % 64) * p + rest);
    } else {
      assert top < 64;
    }
  }

  /** The pair is lossless on exactly the numbers below 2^62. */
  lemma RoundTripIff(n: uint64, suffix: seq<byte>)
    ensures Decode(Encode(n) + suffix) == Decoded(n, PutUVarIntLen(n)) <==> n < TWO62
  {
    DecodeEncode(n, suffix);
  }

  /** No octet string that reads as `n` is shorter than the one written for `n`. */
  lemma EncodingIsShortest(bs: seq<byte>)
    requires Decode(bs).Decoded?
    ensures |Encode(Decode(bs).value)| <= Decode(bs).length
  {
    var len := GetUVarIntLen(bs[0]);
    var top: byte, rest := bs[0] % 64, bs[1..len];
    LeadingDigit(top, rest);
    FromBigEndianBound(rest);
    Powers();
  }

  /** No encoding is a proper prefix of another, so a stream of them splits one way. */
  lemma EncodingsArePrefixFree(a: uint64, b: uint64)
    requires a < TWO62 && b < TWO62
    requires Encode(a) <= Encode(b)
    ensures a == b
  {
    var suffix := Encode(b)[|Encode(a)|..];
    RoundTripIff(a, suffix);
    RoundTripIff(b, []);
    assert Encode(a) + suffix == Encode(b) && Encode(b) + [] == Encode(b);
  }

  /** The 64-bit sum of a header length and the payload length it announces cannot wrap. */
  lemma FrameLengthCannotWrap(bs: seq<byte>)
    requires Decode(bs).Decoded?
    ensures (Decode(bs).length + Decode(bs).value) % 0x1_0000_0000_0000_0000
         == Decode(bs).length + Decode(bs).value
  {
  }

  // ----- the C++ routines

  /** `n & 0xff` */
  function Octet(n: nat): byte
  {
    (n % 0x100) as byte
  }

  /** `n & 0x3f` */
  function LowSix(n: nat): byte
  {
    (n % 0x40) as byte
  }

  /** The octets the four branches store. */
  function Octets(n: uint64): (bs: seq<byte>)
    ensures |bs| == PutUVarIntLen(n)
  {
    if n < 64 then [n as byte]
    else if n < 16384 then [0x40 + LowSix(n / 0x100), Octet(n)]
    else if n < 1073741824 then
      [0x80 + LowSix(n / 0x100_0000), Octet(n / 0x1_0000), Octet(n / 0x100), Octet(n)]
    else
      [0xc0 + LowSix(n / 0x100_0000_0000_0000), Octet(n / 0x1_0000_0000_0000),
       Octet(n / 0x100_0000_0000), Octet(n / 0x1_0000_0000),
       Octet(n / 0x100_0000), Octet(n / 0x1_0000), Octet(n / 0x100), Octet(n)]
  }

  lemma TwoOctets(n: nat, k: nat)
    ensures BigEndian(n, k + 2) == BigEndian(n / 0x1_0000, k) + [Octet(n / 0x100), Octet(n)]
  {
  }

  lemma FourOctets(n: nat, k: nat)
    ensures BigEndian(n, k + 4)
         == BigEndian(n / 0x1_0000_0000, k)
            + [Octet(n / 0x100_0000), Octet(n / 0x1_0000), Octet(n / 0x100), Octet(n)]
  {
    TwoOctets(n, k + 2);
    TwoOctets(n / 0x1_0000, k);
    assert n / 0x1_0000 / 0x1_0000 == n / 0x1_0000_0000;
    assert n / 0x1_0000 / 0x100 == n / 0x100_0000;
  }

  lemma EightOctets(n: nat)
    ensures BigEndian(n, 8)
         == [Octet(n / 0x100_0000_0000_0000), Octet(n / 0x1_0000_0000_0000),
             Octet(n / 0x100_0000_0000), Octet(n / 0x1_0000_0000),
             Octet(n / 0x100_0000), Octet(n / 0x1_0000), Octet(n / 0x100), Octet(n)]
  {
    FourOctets(n, 4);
    var high := n / 0x1_0000_0000;
    FourOctets(high, 0);
    assert high / 0x100_0000 == n / 0x100_0000_0000_0000;
    assert high / 0x1_0000 == n / 0x1_0000_0000_0000;
    assert high / 0x100 == n / 0x100_0000_0000;
  }

  lemma OctetLowSix(x: nat)
    ensures Octet(x) % 64 == LowSix(x)
  {
  }

  lemma OctetsEncode(n: uint64)
    ensures Octets(n) == Encode(n)
  {
    if n < 64 {
      assert BigEndian(n, 1) == BigEndian(n / 256, 0) + [Octet(n)];
    } else if n < 16384 {
      TwoOctets(n, 0);
      OctetLowSix(n / 0x100);
    } else if n < 1073741824 {
      FourOctets(n, 0);
      OctetLowSix(n / 0x100_0000);
    } else {
      EightOctets(n);
      OctetLowSix(n / 0x100_0000_0000_0000);
    }
  }

  lemma ReadsAs(n: uint64, octets: seq<byte>)
    requires n < TWO62 && Octets(n) == octets
    ensures Encode(n) == octets && Decode(octets) == Decoded(n, |octets|)
  {
    OctetsEncode(n);
    RoundTripIff(n, []);
    assert Encode(n) + [] == Encode(n);
  }

  /** Examples of appendix A.1 of RFC 9000, and the largest number there is. */
  lemma RfcExamples()
    ensures Encode(494878333) == [0x9d, 0x7f, 0x3e, 0x7d] && Decode([0x9d, 0x7f, 0x3e, 0x7d]) == Decoded(494878333, 4)
    ensures Encode(15293) == [0x7b, 0xbd] && Decode([0x7b, 0xbd]) == Decoded(15293, 2)
    ensures Encode(37) == [0x25] && Decode([0x25]) == Decoded(37, 1)
    ensures TWO62 - 1 == 4611686018427387903
  {
    ReadsAs(494878333, [0x9d, 0x7f, 0x3e, 0x7d]);
    ReadsAs(15293, [0x7b, 0xbd]);
    ReadsAs(37, [0x25]);
  }

  /** Writes the encoding of `n` at `p` and returns the position after it. */
  method PutUVarInt(buf: array<byte>, p: nat, n: uint64) returns (next: nat)
    requires p + PutUVarIntLen(n) <= buf.Length
    modifies buf
    ensures next == p + PutUVarIntLen(n)
    ensures buf[p..next] == Encode(n)
    ensures buf[..p] == old(buf[..p]) && buf[next..] == old(buf[next..])
  {
    OctetsEncode(n);
    if n < 64 {
      buf[p] := n as byte;
      return p + 1;
    }
    if n < 16384 {
      buf[p] := 0x40 + LowSix(n / 0x100);
      buf[p + 1] := Octet(n);
      return p + 2;
    }
    if n < 1073741824 {
      buf[p] := 0x80 + LowSix(n / 0x100_0000);
      buf[p + 1] := Octet(n / 0x1_0000);
      buf[p + 2] := Octet(n / 0x100);
      buf[p + 3] := Octet(n);
      return p + 4;
    }
    buf[p] := 0xc0 + LowSix(n / 0x100_0000_0000_0000);
    buf[p + 1] := Octet(n / 0x1_0000_0000_0000);
    buf[p + 2] := Octet(n / 0x100_0000_0000);
    buf[p + 3] := Octet(n / 0x1_0000_0000);
    buf[p + 4] := Octet(n / 0x100_0000);
    buf[p + 5] := Octet(n / 0x1_0000);
    buf[p + 6] := Octet(n / 0x100);
    buf[p + 7] := Octet(n);
    return p + 8;
  }

  /** Reads one number from the front of `p`; zero octets consumed means "not yet". */
  method GetUVarInt(p: seq<byte>) returns (consumed: nat, dest: uint64)
    ensures match Decode(p)
            case Incomplete => consumed == 0
            case Decoded(value, length) => consumed == length && dest == value
  {
    consumed, dest := 0, 0;
    if p == [] {
      return;
    }
    var len := GetUVarIntLen(p[0]);
    if |p| < len {
      return;
    }
    TaggedValueBound(p, len);
    var n := (p[0] % 64) as nat;
    ghost var read: seq<byte> := [p[0] % 64];
    assert read[..0] == [];
    for i := 1 to len
      invariant read == [p[0] % 64] + p[1..i]
      invariant n == FromBigEndian(read)
    {
      n := n * 256 + p[i] as nat;
      read := read + [p[i]];
      assert read[..|read| - 1] == [p[0] % 64] + p[1..i];
    }
    return len, n;
  }
}

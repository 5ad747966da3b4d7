/**
 The base64 pair of PbCJson.cpp (section 4 of RFC 4648). The decoder keeps its bits in a signed
 32-bit accumulator that is never masked; `Wrap32` is that accumulator's arithmetic.
 */
module Base64 {
  import opened Bytes
  import opened Options

  /** A signed 32-bit value, with wrap-around. */
  function Wrap32(x: int): (w: int)
    ensures -0x8000_0000 <= w < 0x8000_0000
  {
    (x + 0x8000_0000) % 0x1_0000_0000 - 0x8000_0000
  }

  // ----- alphabet

  newtype sextet = d: int | 0 <= d < 64

  function Symbol(d: sextet): char
  {
    if d < 26 then 'A' + d as char
    else if d < 52 then 'a' + (d - 26) as char
    else if d < 62 then '0' + (d - 52) as char
    else if d == 62 then '+'
    else '/'
  }

  function Index(c: char): (d: int)
    ensures -1 <= d < 64
  {
    if 'A' <= c <= 'Z' then c as int - 'A' as int
    else if 'a' <= c <= 'z' then c as int - 'a' as int + 26
    else if '0' <= c <= '9' then c as int - '0' as int + 52
    else if c == '+' then 62
    else if c == '/' then 63
    else -1
  }

  predicate Skipped(c: char)
  {
    c == '=' || c == '\n' || c == '\r' || c == ' '
  }

  function Symbols(ds: seq<sextet>): (s: string)
    ensures |s| == |ds|
  {
    if ds == [] then "" else [Symbol(ds[0])] + Symbols(ds[1..])
  }

  function Padding(k: nat): (s: string)
    ensures |s| == k
  {
    if k == 0 then "" else "=" + Padding(k - 1)
  }

  // ----- encoder

  /** The octet at `i` of a group, zero when the group is short. */
  function At(group: seq<byte>, i: nat): nat
  {
    if i < |group| then group[i] as nat else 0
  }

  /** The six-bit digits that carry a group of at most three octets. */
  function Sextets(group: seq<byte>): (ds: seq<sextet>)
    requires 0 < |group| <= 3
    ensures |ds| == |group| + 1
  {
    var b0, b1, b2 := At(group, 0), At(group, 1), At(group, 2);
    [(b0 / 4) as sextet, (b0 % 4 * 16 + b1 / 16) as sextet,
     (b1 % 16 * 4 + b2 / 64) as sextet, (b2 % 64) as sextet][..|group| + 1]
  }

  function Group(group: seq<byte>): (s: string)
    requires 0 < |group| <= 3
    ensures |s| == 4
  {
    Symbols(Sextets(group)) + Padding(3 - |group|)
  }

  function First(data: seq<byte>): seq<byte>
  {
    if |data| <= 3 then data else data[..3]
  }

  function Encode(data: seq<byte>): (s: string)
    ensures |s| == (|data| + 2) / 3 * 4
    decreases |data|
  {
    if data == [] then "" else Group(First(data)) + Encode(data[|First(data)|..])
  }

  method Base64Encode(data: seq<byte>) returns (out: string)
    ensures out == Encode(data)
  {
    out := "";
    var i := 0;
    while i < |data|
      invariant i <= |data| ==> out + Encode(data[i..]) == Encode(data)
      invariant i > |data| ==> out == Encode(data)
    {
      var n := data[i] as nat * 0x1_0000
               + (if i + 1 < |data| then data[i + 1] as nat else 0) * 0x100
               + (if i + 2 < |data| then data[i + 2] as nat else 0);
      var symbols := [Symbol((n / 0x4_0000 % 64) as sextet), Symbol((n / 0x1000 % 64) as sextet),
                      if i + 1 < |data| then Symbol((n / 64 % 64) as sextet) else '=',
                      if i + 2 < |data| then Symbol((n % 64) as sextet) else '='];
      PackedGroup(First(data[i..]), n);
      assert symbols == Group(First(data[i..]));
      assert data[i..][|First(data[i..])|..] == if i + 3 <= |data| then data[i + 3..] else [];
      assert out + Encode(data[i..]) == out + symbols + Encode(data[i..])[4..];
      out := out + symbols;
      i := i + 3;
    }
  }

  /** The 24-bit word holds the same digits. */
  lemma PackedGroup(group: seq<byte>, n: nat)
    requires 0 < |group| <= 3
    requires n == At(group, 0) * 0x1_0000 + At(group, 1) * 0x100 + At(group, 2)
    ensures Group(group)
         == [Symbol((n / 0x4_0000 % 64) as sextet), Symbol((n / 0x1000 % 64) as sextet),
             if |group| > 1 then Symbol((n / 64 % 64) as sextet) else '=',
             if |group| > 2 then Symbol((n % 64) as sextet) else '=']
  {
    var ds := Sextets(group);
    PackedDigits(At(group, 0), At(group, 1), At(group, 2));
    assert |group| == 1 ==> ds == [ds[0], ds[1]];
    assert |group| == 2 ==> ds == [ds[0], ds[1], ds[2]];
    assert |group| == 3 ==> ds == [ds[0], ds[1], ds[2], ds[3]];
    SymbolsOf(ds);
    assert Padding(1) == "=" && Padding(2) == "==";
  }

  lemma SymbolsOf(ds: seq<sextet>)
    ensures forall i :: 0 <= i < |ds| ==> Symbols(ds)[i] == Symbol(ds[i])
  {
  }

  lemma PackedDigits(b0: nat, b1: nat, b2: nat)
    requires b0 < 256 && b1 < 256 && b2 < 256
    ensures var n := b0 * 0x1_0000 + b1 * 0x100 + b2;
            && n / 0x4_0000 % 64 == b0 / 4 && n / 0x1000 % 64 == b0 % 4 * 16 + b1 / 16
            && n / 64 % 64 == b1 % 16 * 4 + b2 / 64 && n % 64 == b2 % 64
  {
    var n := b0 * 0x1_0000 + b1 * 0x100 + b2;
    Divided(n, 0x4_0000, b0 / 4, b0 % 4 * 0x1_0000 + b1 * 0x100 + b2);
    Divided(n, 0x1000, b0 * 16 + b1 / 16, b1 % 16 * 0x100 + b2);
    Divided(n, 64, b0 * 1024 + b1 * 4 + b2 / 64, b2 % 64);
    Divided(b0 * 16 + b1 / 16, 64, b0 / 4, b0 % 4 * 16 + b1 / 16);
    Divided(b0 * 1024 + b1 * 4 + b2 / 64, 64, b0 * 16 + b1 / 16, b1 % 16 * 4 + b2 / 64);
  }

  lemma Divided(x: int, m: nat, q: int, r: nat)
    requires r < m && x == m * q + r
    ensures x / m == q && x % m == r
  {
    var d := x / m;
    assert x == m * d + x % m;
    Distribute(m, q, d);
    OnlyZeroMultiple(m, q - d);
  }

  lemma Distribute(m: int, a: int, b: int)
    ensures m * (a - b) == m * a - m * b
  {
  }

  lemma OnlyZeroMultiple(m: int, k: int)
    requires m > 0 && -m < m * k < m
    ensures k == 0
  {
  }

  // ----- decoder

  datatype Accumulator = Accumulator(val: int, valb: int, out: seq<byte>)

  const EMPTY := Accumulator(0, -8, [])

  predicate Valid(acc: Accumulator)
  {
    acc.valb in {-8, -6, -4, -2}
  }

  /** `(x >> k) & 0xff`; only these three shifts occur. */
  function ByteAt(x: int, k: int): byte
    requires k in {0, 2, 4}
  {
    (if k == 0 then x % 256 else if k == 2 then x / 4 % 256 else x / 16 % 256) as byte
  }

  function Push(acc: Accumulator, d: sextet): (next: Accumulator)
    requires Valid(acc)
    ensures Valid(next) && -0x8000_0000 <= next.val < 0x8000_0000
  {
    var val := Wrap32(Wrap32(acc.val * 64) + d as int);
    var valb := acc.valb + 6;
    if valb >= 0 then Accumulator(val, valb - 8, acc.out + [ByteAt(val, valb)])
    else Accumulator(val, valb, acc.out)
  }

  function DecodeFrom(acc: Accumulator, s: string): Option<seq<byte>>
    requires Valid(acc)
    decreases |s|
  {
    if s == "" then Some(acc.out)
    else if Skipped(s[0]) then DecodeFrom(acc, s[1..])
    else if Index(s[0]) < 0 then None
    else DecodeFrom(Push(acc, Index(s[0]) as sextet), s[1..])
  }

  function Decode(s: string): Option<seq<byte>>
  {
    DecodeFrom(EMPTY, s)
  }

  method Base64Decode(s: string) returns (ok: bool, out: seq<byte>)
    ensures Decode(s) == if ok then Some(out) else None
  {
    out := [];
    var val, valb := 0, -8;
    for i := 0 to |s|
      invariant valb in {-8, -6, -4, -2}
      invariant DecodeFrom(Accumulator(val, valb, out), s[i..]) == Decode(s)
    {
      var c := s[i];
      assert s[i..][1..] == s[i + 1..];
      if c == '=' || c == '\n' || c == '\r' || c == ' ' {
        continue;
      }
      var d := Index(c);
      if d < 0 {
        return false, [];
      }
      val := Wrap32(Wrap32(val * 64) + d);
      valb := valb + 6;
      if valb >= 0 {
        out := out + [ByteAt(val, valb)];
        valb := valb - 8;
      }
    }
    ok := true;
  }

  // ----- the pair

  lemma IndexOfSymbol(d: sextet)
    ensures Index(Symbol(d)) == d as int && !Skipped(Symbol(d))
  {
  }

  /** Only the low twelve bits of the accumulator can still reach the output, and wrap-around
      leaves those alone. */
  lemma LowBitsSurvive(val: int, d: nat)
    requires d < 64
    ensures Wrap32(Wrap32(val * 64) + d) % 0x1000 == val % 64 * 64 + d
  {
    var q, r := val / 64, val % 64;
    var k := (val * 64 + 0x8000_0000) / 0x1_0000_0000;
    var x := Wrap32(val * 64);
    assert x == 0x1000 * (q - 0x10_0000 * k) + r * 64;
    var j := (x + d + 0x8000_0000) / 0x1_0000_0000;
    Divided(Wrap32(x + d), 0x1000, q - 0x10_0000 * k - 0x10_0000 * j, r * 64 + d);
  }

  lemma SameByte(x: int, k: int)
    requires k in {0, 2, 4}
    ensures ByteAt(x, k) == ByteAt(x % 0x1000, k)
  {
    var q, r := x / 0x1000, x % 0x1000;
    assert x == 0x1000 * q + r;
    if k == 4 {
      Divided(x, 16, 256 * q + r / 16, r % 16);
      Divided(256 * q + r / 16, 256, q, r / 16);
    } else if k == 2 {
      Divided(x, 4, 1024 * q + r / 4, r % 4);
      Divided(1024 * q + r / 4, 256, 4 * q + r / 4 / 256, r / 4 % 256);
    } else {
      Divided(x, 256, 16 * q + r / 256, r % 256);
    }
  }

  /** What one symbol does, seen through the low bits. */
  lemma PushedBits(acc: Accumulator, d: sextet)
    requires Valid(acc)
    ensures Push(acc, d).val % 64 == d as int
    ensures Push(acc, d).valb == if acc.valb == -8 then -2 else acc.valb - 2
    ensures acc.valb > -8 ==>
              Push(acc, d).out == acc.out + [ByteAt(acc.val % 64 * 64 + d as int, acc.valb + 6)]
  {
    LowBitsSurvive(acc.val, d as nat);
    var val := Push(acc, d).val;
    Divided(val, 64, val / 0x1000 * 64 + acc.val % 64, d as nat);
    if acc.valb > -8 {
      SameByte(val, acc.valb + 6);
    }
  }

  /** Two neighbouring digits hold the octet between them. */
  lemma JoinedBits(b0: nat, b1: nat, b2: nat)
    requires b0 < 256 && b1 < 256 && b2 < 256
    ensures ByteAt(b0 / 4 * 64 + (b0 % 4 * 16 + b1 / 16), 4) as nat == b0
    ensures ByteAt((b0 % 4 * 16 + b1 / 16) * 64 + (b1 % 16 * 4 + b2 / 64), 2) as nat == b1
    ensures ByteAt((b1 % 16 * 4 + b2 / 64) * 64 + b2 % 64, 0) as nat == b2
  {
    Divided(b0 / 4 * 64 + (b0 % 4 * 16 + b1 / 16), 16, b0, b1 / 16);
    Divided((b0 % 4 * 16 + b1 / 16) * 64 + (b1 % 16 * 4 + b2 / 64), 4, b0 % 4 * 256 + b1, b2 / 64);
    Divided(b0 % 4 * 256 + b1, 256, b0 % 4, b1);
    Divided((b1 % 16 * 4 + b2 / 64) * 64 + b2 % 64, 256, b1 % 16, b2);
  }

  function PushAll(acc: Accumulator, ds: seq<sextet>): (after: Accumulator)
    requires Valid(acc)
    ensures Valid(after)
    decreases |ds|
  {
    if ds == [] then acc else PushAll(Push(acc, ds[0]), ds[1..])
  }

  lemma {:induction false} TakeSymbols(acc: Accumulator, ds: seq<sextet>, rest: string)
    requires Valid(acc)
    ensures DecodeFrom(acc, Symbols(ds) + rest) == DecodeFrom(PushAll(acc, ds), rest)
    decreases |ds|
  {
    if ds == [] {
      assert "" + rest == rest;
    } else {
      IndexOfSymbol(ds[0]);
      var s := Symbols(ds) + rest;
      assert s[0] == Symbol(ds[0]) && s[1..] == Symbols(ds[1..]) + rest;
      TakeSymbols(Push(acc, ds[0]), ds[1..], rest);
    }
  }

  lemma {:induction false} SkipPadding(acc: Accumulator, k: nat, rest: string)
    requires Valid(acc)
    ensures DecodeFrom(acc, Padding(k) + rest) == DecodeFrom(acc, rest)
  {
    if k == 0 {
      assert "" + rest == rest;
    } else {
      assert (Padding(k) + rest)[1..] == Padding(k - 1) + rest;
      SkipPadding(acc, k - 1, rest);
    }
  }

  /** A group restores its octets whatever garbage the accumulator holds. */
  lemma GroupRestores(acc: Accumulator, group: seq<byte>)
    requires acc.valb == -8 && 0 < |group| <= 3
    ensures PushAll(acc, Sextets(group)).out == acc.out + group
    ensures |group| == 3 ==> PushAll(acc, Sextets(group)).valb == -8
  {
    var ds := Sextets(group);
    JoinedBits(At(group, 0), At(group, 1), At(group, 2));
    var a1 := Push(acc, ds[0]);
    PushedBits(acc, ds[0]);
    var a2 := Push(a1, ds[1]);
    PushedBits(a1, ds[1]);
    assert a2.out == acc.out + [group[0]];
    PushTwo(acc, ds);
    if |group| > 1 {
      PushedBits(a2, ds[2]);
      var a3 := Push(a2, ds[2]);
      assert a3.out == acc.out + [group[0]] + [group[1]];
      PushTwo(a2, ds[2..]);
      if |group| == 2 {
        assert group == [group[0]] + [group[1]];
      } else {
        PushedBits(a3, ds[3]);
        assert group == [group[0]] + [group[1]] + [group[2]];
      }
    } else {
      assert group == [group[0]];
    }
  }

  lemma PushTwo(acc: Accumulator, ds: seq<sextet>)
    requires Valid(acc)
    ensures |ds| == 1 ==> PushAll(acc, ds) == Push(acc, ds[0])
    ensures |ds| >= 2 ==> PushAll(acc, ds) == PushAll(Push(Push(acc, ds[0]), ds[1]), ds[2..])
    ensures PushAll(acc, []) == acc
  {
  }

  lemma GroupDecodes(acc: Accumulator, group: seq<byte>, rest: string)
    requires Valid(acc) && 0 < |group| <= 3
    ensures DecodeFrom(acc, Group(group) + rest) == DecodeFrom(PushAll(acc, Sextets(group)), rest)
  {
    var padding := Padding(3 - |group|);
    assert Group(group) + rest == Symbols(Sextets(group)) + (padding + rest);
    TakeSymbols(acc, Sextets(group), padding + rest);
    SkipPadding(PushAll(acc, Sextets(group)), 3 - |group|, rest);
  }

  lemma {:induction false} DecodeEncodeFrom(acc: Accumulator, data: seq<byte>)
    requires acc.valb == -8
    ensures DecodeFrom(acc, Encode(data)) == Some(acc.out + data)
    decreases |data|
  {
    if data == [] {
      assert acc.out + data == acc.out;
    } else {
      var group, more := First(data), data[|First(data)|..];
      GroupDecodes(acc, group, Encode(more));
      GroupRestores(acc, group);
      assert acc.out + group + more == acc.out + data;
      if more != [] {
        DecodeEncodeFrom(PushAll(acc, Sextets(group)), more);
      }
    }
  }

  /** Decoding inverts encoding on every octet string, wrap-around and all. */
  lemma DecodeEncode(data: seq<byte>)
    ensures Decode(Encode(data)) == Some(data)
  {
    DecodeEncodeFrom(EMPTY, data);
    assert [] + data == data;
  }
}

/**
 What the base64 decoder makes of any string, and what the encoder writes for any octets, against
 the table of RFC 4648 written out: which strings are decoded, what layout they may hold, and which
 bits of the symbols end in which octet.
 */
module Base64Text {
  import opened Bytes
  import opened Options
  import opened Base64

  // ----- the table

  const CAPITALS := "ABCDEFGHIJKLMNOPQRSTUVWXYZ"

  const SMALLS := "abcdefghijklmnopqrstuvwxyz"

  const OTHERS := "0123456789+/"

  /** The table of section 4 of RFC 4648. */
  const ALPHABET := CAPITALS + SMALLS + OTHERS

  /** What may stand between, before and after the symbols. */
  const LAYOUT := "=\n\r "

  lemma RowAt(d: int)
    ensures 0 <= d < 26 ==> CAPITALS[d] as int == 'A' as int + d && SMALLS[d] as int == 'a' as int + d
  {
  }

  lemma OthersAt(d: int)
    ensures 0 <= d < 12 ==>
              OTHERS[d] as int == if d < 10 then '0' as int + d else if d == 10 then '+' as int else '/' as int
  {
  }

  lemma SymbolIsTabled(d: sextet)
    ensures Symbol(d) == ALPHABET[d]
  {
    RowAt(d as int);
    RowAt(d as int - 26);
    OthersAt(d as int - 52);
    assert Symbol(d) as int == ALPHABET[d] as int;
  }

  /** A symbol's value is its place in the table, and nothing else is a symbol. */
  lemma IndexIsTabled(c: char)
    ensures Index(c) >= 0 <==> c in ALPHABET
    ensures Index(c) >= 0 ==> ALPHABET[Index(c)] == c
    ensures Skipped(c) <==> c in LAYOUT
  {
    forall d: int | 0 <= d < 64
      ensures Index(ALPHABET[d]) == d
    {
      SymbolIsTabled(d as sextet);
      IndexOfSymbol(d as sextet);
    }
    if Index(c) >= 0 {
      SymbolIsTabled(Index(c) as sextet);
      SymbolOfIndex(c);
    }
  }

  lemma SymbolOfIndex(c: char)
    requires Index(c) >= 0
    ensures Symbol(Index(c) as sextet) == c
  {
    assert Symbol(Index(c) as sextet) as int == c as int;
  }

  // ----- which strings are decoded

  predicate Legible(c: char)
  {
    Index(c) >= 0 || Skipped(c)
  }

  lemma {:induction false} DecodedFromIff(acc: Accumulator, s: string)
    requires Base64.Valid(acc)
    ensures DecodeFrom(acc, s).Some? <==> forall i :: 0 <= i < |s| ==> Legible(s[i])
    decreases |s|
  {
    if s != "" {
      if Skipped(s[0]) {
        DecodedFromIff(acc, s[1..]);
      } else if Index(s[0]) >= 0 {
        DecodedFromIff(Push(acc, Index(s[0]) as sextet), s[1..]);
      }
      assert forall i :: 1 <= i < |s| ==> s[i] == s[1..][i - 1];
    }
  }

  /** Decoding fails exactly on a character that is neither in the table nor layout. */
  lemma DecodedIff(s: string)
    ensures Decode(s).Some? <==> forall c :: c in s ==> c in ALPHABET || c in LAYOUT
  {
    DecodedFromIff(EMPTY, s);
    forall c
      ensures Legible(c) <==> c in ALPHABET || c in LAYOUT
    {
      IndexIsTabled(c);
    }
  }

  lemma {:induction false} LayoutFromAnywhere(acc: Accumulator, a: string, c: char, b: string)
    requires Base64.Valid(acc) && Skipped(c)
    ensures DecodeFrom(acc, a + [c] + b) == DecodeFrom(acc, a + b)
    decreases |a|
  {
    if a == "" {
      assert a + [c] + b == [c] + b && a + b == b;
      assert ([c] + b)[1..] == b;
    } else {
      assert (a + [c] + b)[1..] == a[1..] + [c] + b && (a + b)[1..] == a[1..] + b;
      if Skipped(a[0]) {
        LayoutFromAnywhere(acc, a[1..], c, b);
      } else if Index(a[0]) >= 0 {
        LayoutFromAnywhere(Push(acc, Index(a[0]) as sextet), a[1..], c, b);
      }
    }
  }

  /** Padding, line breaks and blanks may be put in or taken out anywhere. */
  lemma LayoutDoesNotMatter(a: string, c: char, b: string)
    requires c in ['=', '\n', '\r', ' ']
    ensures Decode(a + [c] + b) == Decode(a + b)
  {
    LayoutFromAnywhere(EMPTY, a, c, b);
  }

  // ----- to what

  /** The values of the symbols of a string. */
  function Digits(s: string): seq<sextet>
  {
    if s == "" then []
    else (if Index(s[0]) >= 0 then [Index(s[0]) as sextet] else []) + Digits(s[1..])
  }

  /** Octet `j` of the bits that the digits spell: four digits for every three octets. */
  function OctetAt(ds: seq<sextet>, j: nat): byte
    requires j < |ds| * 3 / 4
  {
    var i := j / 3 * 4 + j % 3;
    var d, e := ds[i] as nat, ds[i + 1] as nat;
    (if j % 3 == 0 then d * 4 + e / 16 else if j % 3 == 1 then d % 16 * 16 + e / 4 else d % 4 * 64 + e) as byte
  }

  function Octets(ds: seq<sextet>): seq<byte>
  {
    seq(|ds| * 3 / 4, j requires 0 <= j < |ds| * 3 / 4 => OctetAt(ds, j))
  }

  /** How far the bits of `n` digits go beyond whole octets, less eight. */
  function Phase(n: nat): int
  {
    if n % 4 == 0 then -8 else if n % 4 == 1 then -2 else if n % 4 == 2 then -4 else -6
  }

  /** The accumulator after the digits `ds`. */
  predicate Holds(acc: Accumulator, ds: seq<sextet>)
  {
    && acc.valb == Phase(|ds|)
    && (|ds| % 4 != 0 ==> acc.val % 64 == ds[|ds| - 1] as int)
    && acc.out == Octets(ds)
  }

  lemma PairedBits(d: nat, e: nat, k: int)
    requires d < 64 && e < 64 && k in {0, 2, 4}
    ensures ByteAt(d * 64 + e, k) as nat
         == if k == 4 then d * 4 + e / 16 else if k == 2 then d % 16 * 16 + e / 4 else d % 4 * 64 + e
  {
    var x := d * 64 + e;
    if k == 4 {
      Divided(x, 16, d * 4 + e / 16, e % 16);
      Divided(d * 4 + e / 16, 256, 0, d * 4 + e / 16);
    } else if k == 2 {
      Divided(x, 4, d * 16 + e / 4, e % 4);
      Divided(d * 16 + e / 4, 256, d / 16, d % 16 * 16 + e / 4);
    } else {
      Divided(x, 256, d / 4, d % 4 * 64 + e);
    }
  }

  /** The octet that digit `d` completes lies in the last digit before it and in `d` itself. */
  lemma LastOctet(ds: seq<sextet>, d: sextet)
    requires |ds| % 4 != 0
    ensures |Octets(ds)| < (|ds| + 1) * 3 / 4
    ensures OctetAt(ds + [d], |Octets(ds)|) == ByteAt(ds[|ds| - 1] as int * 64 + d as int, Phase(|ds|) + 6)
  {
    var q, r := |ds| / 4, |ds| % 4;
    Divided(|ds| * 3, 4, 3 * q + r - 1, 4 - r);
    Divided((|ds| + 1) * 3, 4, 3 * q + r, 3 - r);
    Divided(3 * q + r - 1, 3, q, r - 1);
    PairedBits(ds[|ds| - 1] as nat, d as nat, Phase(|ds|) + 6);
  }

  lemma SameOctet(ds: seq<sextet>, d: sextet, j: nat)
    requires j < |ds| * 3 / 4
    ensures j < |ds + [d]| * 3 / 4 && OctetAt(ds + [d], j) == OctetAt(ds, j)
  {
    assert j / 3 * 4 + j % 3 + 1 < |ds|;
  }

  lemma OctetsGrow(ds: seq<sextet>, d: sextet)
    ensures |ds| % 4 == 0 ==> Octets(ds + [d]) == Octets(ds)
    ensures |ds| % 4 != 0 ==>
              Octets(ds + [d])
              == Octets(ds) + [ByteAt(ds[|ds| - 1] as int * 64 + d as int, Phase(|ds|) + 6)]
  {
    var before, after := Octets(ds), Octets(ds + [d]);
    forall j: nat | j < |before|
      ensures j < |after| && after[j] == before[j]
    {
      SameOctet(ds, d, j);
    }
    if |ds| % 4 == 0 {
      assert |after| == |before|;
    } else {
      LastOctet(ds, d);
      assert |after| == |before| + 1;
    }
  }

  lemma PushHolds(acc: Accumulator, ds: seq<sextet>, d: sextet)
    requires Base64.Valid(acc) && Holds(acc, ds)
    ensures Holds(Push(acc, d), ds + [d])
  {
    PushedBits(acc, d);
    OctetsGrow(ds, d);
    assert Push(acc, d).valb == Phase(|ds| + 1);
    if |ds| % 4 == 0 {
      assert Push(acc, d).out == acc.out;
    } else {
      assert acc.val % 64 * 64 + d as int == ds[|ds| - 1] as int * 64 + d as int;
    }
  }

  lemma DigitsStep(s: string)
    requires s != ""
    ensures Index(s[0]) < 0 ==> Digits(s) == Digits(s[1..])
    ensures Index(s[0]) >= 0 ==> Digits(s) == [Index(s[0]) as sextet] + Digits(s[1..])
    ensures Index(s[0]) >= 0 ==> !Skipped(s[0])
  {
  }

  lemma {:induction false} DecodedFromAre(acc: Accumulator, ds: seq<sextet>, s: string)
    requires Base64.Valid(acc) && Holds(acc, ds) && DecodeFrom(acc, s).Some?
    ensures DecodeFrom(acc, s) == Some(Octets(ds + Digits(s)))
    decreases |s|
  {
    if s == "" {
      assert ds + [] == ds;
    } else {
      DigitsStep(s);
      if Skipped(s[0]) {
        DecodedFromAre(acc, ds, s[1..]);
      } else {
        var d := Index(s[0]) as sextet;
        PushHolds(acc, ds, d);
        DecodedFromAre(Push(acc, d), ds + [d], s[1..]);
        assert ds + [d] + Digits(s[1..]) == ds + ([d] + Digits(s[1..]));
      }
    }
  }

  /** The decoded octets are the bits of the symbols' values, high bits first; bits that do not fill
      an octet are dropped. */
  lemma DecodedAre(s: string)
    requires forall c :: c in s ==> c in ALPHABET || c in LAYOUT
    ensures Decode(s) == Some(Octets(Digits(s)))
  {
    DecodedIff(s);
    assert Octets([]) == [];
    DecodedFromAre(EMPTY, [], s);
    assert [] + Digits(s) == Digits(s);
  }

  /** Digit `k` of the octets' bits, filled up with zero bits. */
  function SextetAt(data: seq<byte>, k: nat): sextet
    requires k < (|data| + 2) / 3 * 4
  {
    var filled, i := data + [0, 0], k / 4 * 3;
    var b0, b1, b2 := filled[i] as nat, filled[i + 1] as nat, filled[i + 2] as nat;
    (if k % 4 == 0 then b0 / 4
     else if k % 4 == 1 then b0 % 4 * 16 + b1 / 16
     else if k % 4 == 2 then b1 % 16 * 4 + b2 / 64
     else b2 % 64) as sextet
  }

  lemma FirstSextets(data: seq<byte>, k: nat)
    requires data != [] && k <= |First(data)|
    ensures Sextets(First(data))[k] == SextetAt(data, k)
  {
    var group := First(data);
    assert forall i :: 0 <= i < 3 ==> At(group, i) == At(data, i);
    assert k == 3 ==> SextetAt(data, k) == (At(data, 2) % 64) as sextet;
  }

  lemma GroupAt(data: seq<byte>, k: nat)
    requires data != [] && k < 4
    ensures Group(First(data))[k] == if k <= |First(data)| then ALPHABET[SextetAt(data, k)] else '='
  {
    var ds := Sextets(First(data));
    if k <= |First(data)| {
      SymbolsOf(ds);
      FirstSextets(data, k);
      SymbolIsTabled(ds[k]);
    } else {
      PaddingAt(3 - |First(data)|, k - |ds|);
    }
  }

  lemma {:induction false} PaddingAt(n: nat, i: nat)
    requires i < n
    ensures Padding(n)[i] == '='
  {
    if i > 0 {
      PaddingAt(n - 1, i - 1);
    }
  }

  /** The encoding spells those digits in the table's symbols, then pads with equal signs. */
  lemma {:induction false} EncodedAt(data: seq<byte>, k: nat)
    requires k < (|data| + 2) / 3 * 4
    ensures Encode(data)[k] == if k < (4 * |data| + 2) / 3 then ALPHABET[SextetAt(data, k)] else '='
    decreases |data|
  {
    var group := First(data);
    assert Encode(data) == Group(group) + Encode(data[|group|..]);
    if k < 4 {
      GroupAt(data, k);
    } else {
      EncodedAt(data[3..], k - 4);
      NextSextet(data, k);
    }
  }

  lemma NextSextet(data: seq<byte>, k: nat)
    requires |data| >= 3 && 4 <= k < (|data| + 2) / 3 * 4
    ensures SextetAt(data[3..], k - 4) == SextetAt(data, k)
  {
    assert (k - 4) / 4 * 3 == k / 4 * 3 - 3 && (k - 4) % 4 == k % 4;
    assert data[3..] + [0, 0] == (data + [0, 0])[3..];
  }
}

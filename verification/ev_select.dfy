/**
 The select(2) backend of libev, in its form without fd_set: two arrays of machine words, one bit a
 descriptor, grown a word at a time up to the word needed.
 */
module EvSelect {
  import opened EvInterest

  const NFDBITS: nat := 64

  // ----- bits of a word

  predicate Bit(word: nat, b: nat)
    decreases b
  {
    if b == 0 then word % 2 == 1 else Bit(word / 2, b - 1)
  }

  function Or(x: nat, y: nat): nat
  {
    if x == 0 && y == 0 then 0
    else (if x % 2 == 1 || y % 2 == 1 then 1 else 0) + 2 * Or(x / 2, y / 2)
  }

  function AndNot(x: nat, y: nat): nat
  {
    if x == 0 then 0 else (if x % 2 == 1 && y % 2 == 0 then 1 else 0) + 2 * AndNot(x / 2, y / 2)
  }

  function Shifted(b: nat): nat
  {
    if b == 0 then 1 else 2 * Shifted(b - 1)
  }

  lemma Halved(low: nat, half: nat)
    requires low <= 1
    ensures (low + 2 * half) / 2 == half && (low + 2 * half) % 2 == low
  {
  }

  lemma {:induction false} OrBit(x: nat, y: nat, b: nat)
    ensures Bit(Or(x, y), b) <==> Bit(x, b) || Bit(y, b)
    decreases b
  {
    Halved(if x % 2 == 1 || y % 2 == 1 then 1 else 0, Or(x / 2, y / 2));
    if b > 0 {
      OrBit(x / 2, y / 2, b - 1);
    }
  }

  lemma {:induction false} AndNotBit(x: nat, y: nat, b: nat)
    ensures Bit(AndNot(x, y), b) <==> Bit(x, b) && !Bit(y, b)
    decreases b
  {
    Halved(if x % 2 == 1 && y % 2 == 0 then 1 else 0, AndNot(x / 2, y / 2));
    if b > 0 {
      AndNotBit(x / 2, y / 2, b - 1);
    }
  }

  lemma {:induction false} ZeroBit(b: nat)
    ensures !Bit(0, b)
    decreases b
  {
    if b > 0 {
      ZeroBit(b - 1);
    }
  }

  lemma {:induction false} ShiftedBit(a: nat, b: nat)
    ensures Bit(Shifted(a), b) <==> a == b
    decreases b
  {
    if b > 0 {
      if a == 0 {
        ZeroBit(b - 1);
      } else {
        ShiftedBit(a - 1, b - 1);
      }
    }
  }

  /** The words stay within their width. */
  lemma {:induction false} OrFits(x: nat, y: nat, width: nat)
    requires x < Shifted(width) && y < Shifted(width)
    ensures Or(x, y) < Shifted(width)
    decreases width
  {
    if width > 0 {
      OrFits(x / 2, y / 2, width - 1);
    }
  }

  lemma {:induction false} AndNotShrinks(x: nat, y: nat)
    ensures AndNot(x, y) <= x
    decreases x
  {
    if x > 0 {
      AndNotShrinks(x / 2, y / 2);
    }
  }

  lemma {:induction false} ShiftedPositive(a: nat)
    ensures Shifted(a) > 0
    decreases a
  {
    if a > 0 {
      ShiftedPositive(a - 1);
    }
  }

  lemma {:induction false} ShiftedGrows(a: nat, b: nat)
    requires a < b
    ensures Shifted(a) < Shifted(b)
    decreases b
  {
    if a + 1 < b {
      ShiftedGrows(a, b - 1);
    }
    ShiftedPositive(b - 1);
  }

  /** Setting or clearing one bit leaves the others alone. */
  function Assigned(word: nat, b: nat, on: bool): nat
  {
    var set1 := Or(word, Shifted(b));
    if on then set1 else AndNot(set1, Shifted(b))
  }

  lemma AssignedBit(word: nat, b: nat, on: bool, k: nat)
    ensures Bit(Assigned(word, b, on), k) <==> if k == b then on else Bit(word, k)
  {
    OrBit(word, Shifted(b), k);
    ShiftedBit(b, k);
    AndNotBit(Or(word, Shifted(b)), Shifted(b), k);
  }

  lemma AssignedFits(word: nat, b: nat, on: bool)
    requires word < Shifted(NFDBITS) && b < NFDBITS
    ensures Assigned(word, b, on) < Shifted(NFDBITS)
  {
    ShiftedGrows(b, NFDBITS);
    OrFits(word, Shifted(b), NFDBITS);
    AndNotShrinks(Or(word, Shifted(b)), Shifted(b));
  }

  // ----- bits of a whole array

  predicate Has(words: seq<nat>, fd: nat)
  {
    fd / NFDBITS < |words| && Bit(words[fd / NFDBITS], fd % NFDBITS)
  }

  /** Words are 64 bits wide, and the lowest bit is that of the lowest descriptor. */
  lemma WordAndBit(words: seq<nat>, fd: nat)
    requires fd / 64 < |words|
    ensures Has(words, fd) <==> Bit(words[fd / 64], fd % 64)
    ensures Bit(words[fd / 64], 0) <==> words[fd / 64] % 2 == 1
  {
  }

  function Pad(words: seq<nat>, n: nat): seq<nat>
  {
    if n <= |words| then words else words + seq(n - |words|, _ => 0)
  }

  function Assign(words: seq<nat>, fd: nat, on: bool): seq<nat>
    requires fd / NFDBITS < |words|
  {
    words[fd / NFDBITS := Assigned(words[fd / NFDBITS], fd % NFDBITS, on)]
  }

  lemma PadHas(words: seq<nat>, n: nat, fd: nat)
    ensures Has(Pad(words, n), fd) <==> Has(words, fd)
  {
    ZeroBit(fd % NFDBITS);
  }

  lemma AssignHas(words: seq<nat>, fd: nat, on: bool, k: nat)
    requires fd / NFDBITS < |words|
    ensures Has(Assign(words, fd, on), k) <==> if k == fd then on else Has(words, k)
  {
    if k / NFDBITS == fd / NFDBITS {
      AssignedBit(words[fd / NFDBITS], fd % NFDBITS, on, k % NFDBITS);
      assert k == NFDBITS * (k / NFDBITS) + k % NFDBITS;
      assert fd == NFDBITS * (fd / NFDBITS) + fd % NFDBITS;
    }
  }

  function Events(ri: seq<nat>, wi: seq<nat>, fd: nat): nat
  {
    (if Has(ri, fd) then EV_READ else 0) + (if Has(wi, fd) then EV_WRITE else 0)
  }

  function InterestOf(ri: seq<nat>, wi: seq<nat>): Interest
  {
    map fd: nat | 0 <= fd < NFDBITS * (|ri| + |wi|) && Events(ri, wi, fd) != 0 :: Events(ri, wi, fd)
  }

  lemma InterestWatches(ri: seq<nat>, wi: seq<nat>, fd: nat)
    ensures Watched(InterestOf(ri, wi), fd) == Events(ri, wi, fd)
  {
  }

  lemma SameInterest(m: Interest, n: Interest)
    requires forall fd: nat :: Watched(m, fd) == Watched(n, fd)
    requires (forall fd :: fd in m ==> m[fd] != 0) && forall fd :: fd in n ==> n[fd] != 0
    ensures m == n
  {
    forall fd: nat
      ensures (fd in m <==> fd in n) && (fd in m ==> m[fd] == n[fd])
    {
      assert Watched(m, fd) == Watched(n, fd);
    }
  }

  /** One call on the word arrays is one update of the map. */
  lemma ModifyRefines(ri: seq<nat>, wi: seq<nat>, fd: nat, oev: nat, nev: nat)
    requires oev != nev && Mask(nev) && |ri| == |wi|
    ensures InterestOf(Assign(Pad(ri, fd / NFDBITS + 1), fd, Wants(nev, EV_READ)),
                       Assign(Pad(wi, fd / NFDBITS + 1), fd, Wants(nev, EV_WRITE)))
         == Updated(InterestOf(ri, wi), Change(fd, oev, nev))
  {
    var n := fd / NFDBITS + 1;
    var ri1 := Assign(Pad(ri, n), fd, Wants(nev, EV_READ));
    var wi1 := Assign(Pad(wi, n), fd, Wants(nev, EV_WRITE));
    var m := Updated(InterestOf(ri, wi), Change(fd, oev, nev));
    forall k: nat
      ensures Watched(InterestOf(ri1, wi1), k) == Watched(m, k)
    {
      InterestWatches(ri1, wi1, k);
      InterestWatches(ri, wi, k);
      AssignHas(Pad(ri, n), fd, Wants(nev, EV_READ), k);
      AssignHas(Pad(wi, n), fd, Wants(nev, EV_WRITE), k);
      PadHas(ri, n, k);
      PadHas(wi, n, k);
      assert nev == 0 || nev == 1 || nev == 2 || nev == 3;
    }
    SameInterest(InterestOf(ri1, wi1), m);
  }

  ghost predicate Words(words: seq<nat>)
  {
    forall i :: 0 <= i < |words| ==> words[i] < Shifted(NFDBITS)
  }

  lemma PadFits(words: seq<nat>, n: nat)
    requires Words(words)
    ensures Words(Pad(words, n))
  {
    ShiftedPositive(NFDBITS);
  }

  class SelectBackend {
    var vecRi: array<nat>
    var vecWi: array<nat>
    var vecMax: nat

    constructor ()
      ensures Valid() && fresh(vecRi) && fresh(vecWi)
      ensures Interest() == map[]
    {
      vecRi := new nat[0];
      vecWi := new nat[0];
      vecMax := 0;
    }

    ghost predicate Valid()
      reads this, vecRi, vecWi
    {
      && vecRi != vecWi
      && vecRi.Length == vecWi.Length == vecMax
      && Words(vecRi[..]) && Words(vecWi[..])
    }

    ghost function Interest(): Interest
      reads this, vecRi, vecWi
    {
      InterestOf(vecRi[..], vecWi[..])
    }

    method Grow(newMax: nat)
      requires Valid() && vecMax < newMax
      modifies this
      ensures Valid() && fresh(vecRi) && fresh(vecWi) && vecMax == newMax
      ensures vecRi[..] == Pad(old(vecRi[..]), newMax) && vecWi[..] == Pad(old(vecWi[..]), newMax)
    {
      ghost var ri, wi := vecRi[..], vecWi[..];
      vecRi := Realloc(vecRi, newMax);
      vecWi := Realloc(vecWi, newMax);
      vecMax := newMax;
      PadFits(ri, newMax);
      PadFits(wi, newMax);
    }

    /** The old words, then zeroes. */
    static method Realloc(words: array<nat>, newMax: nat) returns (wider: array<nat>)
      requires words.Length <= newMax
      ensures fresh(wider) && wider[..] == Pad(words[..], newMax)
    {
      wider := new nat[newMax];
      forall i | 0 <= i < words.Length { wider[i] := words[i]; }
      var i := words.Length;
      while i < newMax
        invariant words.Length <= i <= newMax
        invariant wider[..i] == Pad(words[..], i)
      {
        wider[i] := 0;
        i := i + 1;
      }
      assert wider[..i] == wider[..];
    }

    /** The two statements that set or clear one descriptor in one array. */
    static method SetBit(words: array<nat>, fd: nat, on: bool)
      requires fd / NFDBITS < words.Length && Words(words[..])
      modifies words
      ensures words[..] == Assign(old(words[..]), fd, on) && Words(words[..])
    {
      var word, mask := fd / NFDBITS, Shifted(fd % NFDBITS);
      ghost var was := words[..];
      assert was[word] < Shifted(NFDBITS);
      AssignedFits(was[word], fd % NFDBITS, on);
      words[word] := Or(words[word], mask);
      if !on {
        words[word] := AndNot(words[word], mask);
      }
      assert words[..] == Assign(was, fd, on);
    }

    method SelectModify(fd: nat, oev: nat, nev: nat)
      requires Valid() && Mask(oev) && Mask(nev)
      modifies this, vecRi, vecWi
      ensures Valid() && Interest() == Updated(old(Interest()), Change(fd, oev, nev))
      ensures vecRi == old(vecRi) || fresh(vecRi)
      ensures vecWi == old(vecWi) || fresh(vecWi)
    {
      if oev == nev {
        return;
      }
      ModifyRefines(vecRi[..], vecWi[..], fd, oev, nev);
      if vecMax <= fd / NFDBITS {
        Grow(fd / NFDBITS + 1);
      }
      StoreBits(fd, nev);
    }

    method StoreBits(fd: nat, nev: nat)
      requires Valid() && Mask(nev) && fd / NFDBITS < vecMax
      modifies vecRi, vecWi
      ensures Valid()
      ensures vecRi[..] == Assign(old(vecRi[..]), fd, Wants(nev, EV_READ))
      ensures vecWi[..] == Assign(old(vecWi[..]), fd, Wants(nev, EV_WRITE))
    {
      SetBit(vecRi, fd, Wants(nev, EV_READ));
      SetBit(vecWi, fd, Wants(nev, EV_WRITE));
    }
  }
}

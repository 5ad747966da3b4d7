/** Octets and the concatenation of pieces, shared by every transport module. */
module Bytes {
  newtype byte = x: int | 0 <= x < 256

  /** The pieces of a stream joined back together. */
  function Flatten<T>(pieces: seq<seq<T>>): (whole: seq<T>)
  {
    if pieces == [] then [] else pieces[0] + Flatten(pieces[1..])
  }

  lemma {:induction false} FlattenAppend<T>(a: seq<seq<T>>, b: seq<seq<T>>)
    ensures Flatten(a + b) == Flatten(a) + Flatten(b)
  {
    if a == [] {
      assert a + b == b;
    } else {
      assert (a + b)[1..] == a[1..] + b;
      FlattenAppend(a[1..], b);
    }
  }
}

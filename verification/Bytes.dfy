/** Byte strings and newline framing, shared by the two stream decoders and the name map. */
module Bytes {
  import opened Wrappers

  newtype byte = x: int | 0 <= x < 256

  type Bytes = seq<byte>

  const LF: byte := 10
  const CR: byte := 13
  const SPACE: byte := 32
  const COLON: byte := 58

  /** The first position of `x`, if any. */
  function IndexOf(b: Bytes, x: byte): (r: Option<nat>)
    ensures r.Some? ==> r.value < |b| && b[r.value] == x && x !in b[..r.value]
    ensures r.None? <==> x !in b
  {
    if b == [] then None
    else if b[0] == x then Some(0)
    else
      assert b == [b[0]] + b[1..];
      match IndexOf(b[1..], x)
      case None => None
      case Some(n) =>
        assert b[..n + 1] == [b[0]] + b[1..][..n];
        Some(n + 1)
  }

  lemma FirstIndex(b: Bytes, x: byte, n: nat)
    requires n < |b| && b[n] == x && x !in b[..n]
    ensures IndexOf(b, x) == Some(n)
  {}

  lemma IndexInPrefix(a: Bytes, b: Bytes, x: byte)
    requires x in a
    ensures IndexOf(a + b, x) == IndexOf(a, x)
  {
    var n := IndexOf(a, x).value;
    assert (a + b)[..n] == a[..n];
    FirstIndex(a + b, x, n);
  }

  /** Drops one trailing carriage return. */
  function StripCr(line: Bytes): Bytes {
    if line != [] && line[|line| - 1] == CR then line[..|line| - 1] else line
  }

  /** What follows the last newline: the partial line a decoder keeps. */
  function Tail(b: Bytes): (r: Bytes)
    ensures LF !in r && |r| <= |b| && (LF !in b ==> r == b)
    decreases |b|
  {
    match IndexOf(b, LF)
    case None => b
    case Some(n) => Tail(b[n + 1..])
  }

  function Concat(chunks: seq<Bytes>): Bytes {
    if chunks == [] then [] else chunks[0] + Concat(chunks[1..])
  }

  /** The kept partial line does not depend on where the input was cut. */
  lemma {:induction false} TailOfConcat(a: Bytes, b: Bytes)
    ensures Tail(a + b) == Tail(Tail(a) + b)
    decreases |a|
  {
    match IndexOf(a, LF) {
      case None =>
      case Some(n) =>
        IndexInPrefix(a, b, LF);
        assert (a + b)[n + 1..] == a[n + 1..] + b;
        TailOfConcat(a[n + 1..], b);
    }
  }
}

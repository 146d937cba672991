/** Bytes and the little-endian 16-bit fields that every layer of the host is built from. */
module Bytes {
  type byte = b: int | 0 <= b < 256
  type u16 = v: int | 0 <= v < 65536

  /** The two bytes of `v`, least significant first. The source passes a size
      through a cast to 16 bits, so the caller writes `% 65536` where it does. */
  function Put16(v: u16): (r: seq<byte>)
    ensures |r| == 2
  {
    [v % 256, v / 256]
  }

  function Get16(b: seq<byte>): (v: u16)
    requires |b| >= 2
  {
    b[0] as int + 256 * b[1] as int
  }

  lemma Get16Put16(v: u16, rest: seq<byte>)
    ensures Get16(Put16(v) + rest) == v
  {
  }

  lemma Put16Get16(b: seq<byte>)
    requires |b| >= 2
    ensures Put16(Get16(b)) == b[..2]
  {
  }

  /** What a hexadecimal digit of either case is worth; -1 for any other byte. */
  function HexValue(c: byte): (v: int)
    ensures -1 <= v < 16
  {
    if 0x30 <= c <= 0x39 then c - 0x30
    else if 0x61 <= c <= 0x66 then c - 0x61 + 10
    else if 0x41 <= c <= 0x46 then c - 0x41 + 10
    else -1
  }

  /** The concatenation of a list of chunks. */
  function Flatten<T>(chunks: seq<seq<T>>): seq<T>
  {
    if chunks == [] then [] else chunks[0] + Flatten(chunks[1..])
  }

  lemma {:induction false} FlattenAppend<T>(a: seq<seq<T>>, b: seq<seq<T>>)
    ensures Flatten(a + b) == Flatten(a) + Flatten(b)
  {
    if a == [] {
      assert a + b == b;
    } else {
      assert (a + b)[1..] == a[1..] + b;
      FlattenAppend(a[1..], b);
    }
  }

  lemma FlattenOne<T>(c: seq<T>)
    ensures Flatten([c]) == c
  {
    assert [c][1..] == [];
  }

  lemma DropDrop<T>(a: seq<T>, i: nat, j: nat)
    requires i + j <= |a|
    ensures a[i..][j..] == a[i + j..]
  {
  }

  lemma TakeRest<T>(a: seq<T>, i: nat)
    requires 0 < i <= |a|
    ensures a[..i][1..] == a[1..][..i - 1]
  {
  }

  lemma DropConcat<T>(a: seq<T>, b: seq<T>, i: nat)
    requires i <= |a|
    ensures (a + b)[i..] == a[i..] + b
  {
  }

  lemma Regroup<T>(a: seq<T>, b: seq<T>, c: seq<T>)
    ensures (a + b) + c == a + (b + c)
  {
  }
}

/** Bytes, 16-bit words in network order, and the list helpers every layer uses. */
module Bytes {

  type byte = x: int | 0 <= x < 256
  type word = x: int | 0 <= x < 0x10000

  /** The number of values of a ULONG. */
  const TWO32 := 0x1_0000_0000

  /** A C string without its terminator. */
  type CString = s: seq<byte> | 0 !in s

  datatype Option<+T> = None | Some(value: T)

  /** The two bytes of a word as they travel on the wire: most significant first. */
  function Wire16(w: word): (s: seq<byte>)
    ensures |s| == 2 && Word16(s[0], s[1]) == w
  {
    [w / 256, w % 256]
  }

  function Word16(hi: byte, lo: byte): word {
    256 * hi + lo
  }

  function Min(a: int, b: int): int {
    if a <= b then a else b
  }

  /** All the bytes of a list of blocks, one after the other. */
  function Flatten(blocks: seq<seq<byte>>): seq<byte> {
    if blocks == [] then [] else blocks[0] + Flatten(blocks[1..])
  }

  lemma {:induction false} FlattenConcat(a: seq<seq<byte>>, b: seq<seq<byte>>)
    ensures Flatten(a + b) == Flatten(a) + Flatten(b)
  {
    if a == [] {
      assert a + b == b;
    } else {
      assert (a + b)[1..] == a[1..] + b;
      FlattenConcat(a[1..], b);
    }
  }

  /** A shorter list of blocks holds a prefix of the bytes. */
  lemma FlattenPrefix(a: seq<seq<byte>>, b: seq<seq<byte>>)
    requires a <= b
    ensures Flatten(a) <= Flatten(b)
  {
    assert b == a + b[|a|..];
    FlattenConcat(a, b[|a|..]);
  }
}

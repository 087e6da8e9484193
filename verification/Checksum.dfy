/** The Internet checksum of netio.c and slip.c (RFC 1071), on machines of either byte order. */
module Checksum {
  import opened Bytes

  /** The byte order of the machine the code runs on. */
  datatype Order = BigEndian | LittleEndian

  /** A 16-bit load, as `*p` does it natively. */
  function Load16(order: Order, b0: byte, b1: byte): word {
    match order
    case BigEndian => Word16(b0, b1)
    case LittleEndian => Word16(b1, b0)
  }

  /** A native 16-bit store. */
  function Store16(order: Order, w: word): (s: seq<byte>)
    ensures |s| == 2 && Load16(order, s[0], s[1]) == w
  {
    match order
    case BigEndian => [w / 256, w % 256]
    case LittleEndian => [w % 256, w / 256]
  }

  function Swap(w: word): word {
    Word16(w % 256, w / 256)
  }

  lemma WordBytes(hi: byte, lo: byte)
    ensures Word16(hi, lo) / 256 == hi && Word16(hi, lo) % 256 == lo
  {
  }

  /** htons: network order is big-endian. */
  function Htons(order: Order, w: word): word {
    match order
    case BigEndian => w
    case LittleEndian => Swap(w)
  }

  /** A field stored through htons looks the same on both kinds of machine. */
  lemma HtonsStore(order: Order, w: word)
    ensures Store16(order, Htons(order, w)) == Wire16(w)
  {
    WordBytes(w % 256, w / 256);
  }

  /** The exact sum of the 16-bit words of s; an odd last byte counts as a small word. */
  function WordSum(order: Order, s: seq<byte>): nat {
    if s == [] then 0
    else if |s| == 1 then s[0]
    else Load16(order, s[0], s[1]) + WordSum(order, s[2..])
  }

  /** The two folding statements on a 32-bit sum, and the truncation to 16 bits. */
  function Fold(sum: nat): word
    requires sum < TWO32
  {
    var once := sum / 0x10000 + sum % 0x10000;
    ((once + once / 0x10000) % TWO32) % 0x10000
  }

  function Complement(w: word): word {
    0xFFFF - w
  }

  /** The value calc_checksum returns for a 32-bit sum. */
  function Finish(sum: nat): word
    requires sum < TWO32
  {
    Complement(Fold(sum))
  }

  function Sum(order: Order, s: seq<byte>): word {
    Finish(WordSum(order, s) % TWO32)
  }

  lemma {:induction false} WordSumAppend(order: Order, a: seq<byte>, b: seq<byte>)
    requires |a| % 2 == 0
    ensures WordSum(order, a + b) == WordSum(order, a) + WordSum(order, b)
  {
    if a == [] {
      assert a + b == b;
    } else {
      assert (a + b)[2..] == a[2..] + b;
      WordSumAppend(order, a[2..], b);
    }
  }

  lemma AddWrapped(a: nat, b: nat)
    ensures (a % TWO32 + b) % TWO32 == (a + b) % TWO32
  {
  }

  /** The loop of calc_checksum: a 32-bit accumulator over native words. */
  method CalcChecksum(order: Order, bytes: array<byte>, len: nat) returns (checksum: word)
    requires len <= bytes.Length
    ensures checksum == Sum(order, bytes[..len])
  {
    var sum, p, i := 0, 0, len;
    ghost var s, exact: nat := bytes[..len], 0;
    while i > 1
      invariant 0 <= i <= len && p == len - i
      invariant sum == exact % TWO32
      invariant exact + WordSum(order, s[p..]) == WordSum(order, s)
    {
      var w := Load16(order, bytes[p], bytes[p + 1]);
      WordSumStep(order, s[p..]);
      assert s[p..][2..] == s[p + 2..];
      AddWrapped(exact, w);
      sum, exact := (sum + w) % TWO32, exact + w;
      p, i := p + 2, i - 2;
    }
    if i == 1 {
      assert s[p..] == [bytes[p]];
      AddWrapped(exact, bytes[p]);
      sum, exact := (sum + bytes[p]) % TWO32, exact + bytes[p];
    }
    checksum := FoldTwice(sum);
  }

  /** The statements after the loop of calc_checksum. */
  method FoldTwice(sum32: nat) returns (checksum: word)
    requires sum32 < TWO32
    ensures checksum == Finish(sum32)
  {
    var sum := sum32 / 0x10000 + sum32 % 0x10000;
    sum := (sum + sum / 0x10000) % TWO32;
    checksum := Complement(sum % 0x10000);
  }

  lemma WordSumStep(order: Order, s: seq<byte>)
    requires |s| > 1
    ensures WordSum(order, s) == Load16(order, s[0], s[1]) + WordSum(order, s[2..])
  {
  }

  // ---------------------------------------------------------------------------------------
  // What the folds compute
  // ---------------------------------------------------------------------------------------

  /** 65537 words are the most whose sum always fits the 32-bit accumulator. */
  lemma {:induction false} SumFits(order: Order, s: seq<byte>)
    requires |s| % 2 == 0
    ensures WordSum(order, s) <= (|s| / 2) * 0xFFFF
    ensures |s| <= 2 * 65537 ==> WordSum(order, s) < TWO32
  {
    if s != [] {
      SumFits(order, s[2..]);
    }
  }

  lemma OverflowsAt65538(order: Order, s: seq<byte>)
    requires |s| == 2 * 65538 && forall i :: 0 <= i < |s| ==> s[i] == 0xFF
    ensures WordSum(order, s) >= TWO32
  {
    AllOnes(order, s);
  }

  lemma {:induction false} AllOnes(order: Order, s: seq<byte>)
    requires |s| % 2 == 0 && forall i :: 0 <= i < |s| ==> s[i] == 0xFF
    ensures WordSum(order, s) == (|s| / 2) * 0xFFFF
  {
    if s != [] {
      AllOnes(order, s[2..]);
    }
  }

  function Times(k: int): int {
    0xFFFF * k
  }

  /** a and b are equal modulo 65535. */
  ghost predicate Congruent(a: int, b: int) {
    exists k :: a == b + Times(k)
  }

  /** f is n in one's-complement arithmetic on 16 bits: congruent, and 0 for 0 only. */
  ghost predicate IsFolded(n: nat, f: word) {
    Congruent(n, f) && (f == 0 <==> n == 0)
  }

  /** Two folds always suffice: the truncation to 16 bits loses no carry. */
  lemma FoldIsFolded(n: nat)
    requires n < TWO32
    ensures IsFolded(n, Fold(n))
  {
    var high, once := n / 0x10000, n / 0x10000 + n % 0x10000;
    var carry := once / 0x10000;
    assert carry <= 1;
    assert Fold(n) == once + carry - 0x10000 * carry;
    assert n == Fold(n) + Times(high + carry);
  }

  lemma FoldedUnique(n: nat, f: word, g: word)
    requires IsFolded(n, f) && IsFolded(n, g)
    ensures f == g
  {
    var j :| n == f + Times(j);
    var k :| n == g + Times(k);
    assert f - g == Times(k - j);
  }

  lemma {:induction false} SumFolds(order: Order, s: seq<byte>)
    requires |s| % 2 == 0 && |s| <= 2 * 65537
    ensures IsFolded(WordSum(order, s), Complement(Sum(order, s)))
  {
    SumFits(order, s);
    FinishFolds(WordSum(order, s));
  }

  lemma FinishFolds(n: nat)
    requires n < TWO32
    ensures IsFolded(n, Complement(Finish(n % TWO32)))
  {
    FoldIsFolded(n);
    assert n % TWO32 == n;
    assert Complement(Finish(n)) == Fold(n);
  }

  lemma ComplementCancels(n: nat, f: word)
    requires IsFolded(n, f)
    ensures IsFolded(n + Complement(f), 0xFFFF)
  {
    var k :| n == f + Times(k);
    assert n + Complement(f) == 0xFFFF + Times(k);
  }

  /** Writing the checksum into a zeroed word of an even-length header makes the header check. */
  lemma ChecksumVerifies(order: Order, a: seq<byte>, b: seq<byte>)
    requires |a| % 2 == 0 && |b| % 2 == 0 && |a| + 2 + |b| <= 2 * 65537
    ensures Sum(order, a + Store16(order, Sum(order, a + [0, 0] + b)) + b) == 0
  {
    var zero := a + [0, 0] + b;
    var c := Sum(order, zero);
    var full := a + Store16(order, c) + b;
    SumWithField(order, a, [0, 0], b);
    SumWithField(order, a, Store16(order, c), b);
    assert WordSum(order, full) == WordSum(order, zero) + c;
    EvenLength(a, [0, 0], b);
    EvenLength(a, Store16(order, c), b);
    SumFolds(order, zero);
    SumFolds(order, full);
    Cancelled(WordSum(order, zero), c, Sum(order, full));
  }

  lemma EvenLength(a: seq<byte>, field: seq<byte>, b: seq<byte>)
    requires |a| % 2 == 0 && |field| == 2 && |b| % 2 == 0
    ensures |a + field + b| % 2 == 0
  {
  }

  lemma Cancelled(n: nat, c: word, r: word)
    requires IsFolded(n, Complement(c)) && IsFolded(n + c, Complement(r))
    ensures r == 0
  {
    ComplementCancels(n, Complement(c));
    FoldedUnique(n + c, Complement(r), 0xFFFF);
  }

  lemma SumWithField(order: Order, a: seq<byte>, field: seq<byte>, b: seq<byte>)
    requires |a| % 2 == 0 && |field| == 2
    ensures WordSum(order, a + field + b)
         == WordSum(order, a) + Load16(order, field[0], field[1]) + WordSum(order, b)
  {
    assert a + field + b == a + (field + b);
    WordSumAppend(order, a, field + b);
    WordSumAppend(order, field, b);
    assert field[2..] == [];
  }

  // ---------------------------------------------------------------------------------------
  // Odd lengths
  // ---------------------------------------------------------------------------------------

  lemma LastWord(order: Order, a: seq<byte>, last: byte)
    requires |a| % 2 == 0
    ensures WordSum(order, a + [last]) == WordSum(order, a) + last
    ensures WordSum(order, a + [last, 0]) == WordSum(order, a) + Load16(order, last, 0)
  {
    hide Load16;
    WordSumAppend(order, a, [last]);
    WordSumAppend(order, a, [last, 0]);
    WordSumStep(order, [last, 0]);
    assert [last, 0][2..] == [];
  }

  /** An odd last byte is added as it is: it counts as the low byte of a word. */
  lemma OddSums(s: seq<byte>)
    requires |s| % 2 == 1
    ensures WordSum(LittleEndian, s + [0]) == WordSum(LittleEndian, s)
    ensures WordSum(BigEndian, s + [0]) == WordSum(BigEndian, s) + 255 * (s[|s| - 1] as int)
  {
    hide WordSum;
    var a, last := s[..|s| - 1], s[|s| - 1];
    assert s == a + [last] && s + [0] == a + [last, 0];
    LastWord(LittleEndian, a, last);
    LastWord(BigEndian, a, last);
  }

  lemma SmallDifference(n: nat, b: byte, f: word)
    requires IsFolded(n, f) && IsFolded(n + 255 * (b as int), f)
    ensures b == 0
  {
    var j :| n == f + Times(j);
    var k :| n + 255 * (b as int) == f + Times(k);
    assert 255 * (b as int) == Times(k - j);
  }

  lemma ExactFold(n: nat)
    requires n < TWO32
    ensures IsFolded(n, Fold(n % TWO32)) && Complement(Finish(n % TWO32)) == Fold(n % TWO32)
  {
    FoldIsFolded(n);
  }

  /** The checksum of an odd number of bytes is that of the bytes padded with a zero (RFC 1071, section 1)
      on a little-endian machine always; on a big-endian one exactly if the last byte is zero. */
  lemma OddExact(s: seq<byte>)
    requires |s| % 2 == 1 && |s| < 2 * 65537
    ensures Sum(LittleEndian, s) == Sum(LittleEndian, s + [0])
    ensures Sum(BigEndian, s) == Sum(BigEndian, s + [0]) <==> s[|s| - 1] == 0
  {
    hide WordSum, Fold;
    OddSums(s);
    SumFits(BigEndian, s + [0]);
    ExactFold(WordSum(BigEndian, s));
    ExactFold(WordSum(BigEndian, s + [0]));
    if Sum(BigEndian, s) == Sum(BigEndian, s + [0]) {
      SmallDifference(WordSum(BigEndian, s), s[|s| - 1], Fold(WordSum(BigEndian, s) % TWO32));
    }
  }

  // ---------------------------------------------------------------------------------------
  // Byte-order independence
  // ---------------------------------------------------------------------------------------

  lemma SwapCongruent(w: word)
    ensures 256 * w == Swap(w) + Times(w / 256)
    ensures Swap(w) == 0 <==> w == 0
  {
  }

  lemma CongruentStep(hi: byte, lo: byte, big: nat, little: nat)
    requires Congruent(256 * big, little)
    ensures Congruent(256 * (Word16(hi, lo) + big), Word16(lo, hi) + little)
  {
    var k :| 256 * big == little + Times(k);
    assert 256 * (Word16(hi, lo) + big) == Word16(lo, hi) + little + Times(hi + k);
  }

  lemma {:induction false} SumsCongruent(s: seq<byte>)
    requires |s| % 2 == 0
    ensures Congruent(256 * WordSum(BigEndian, s), WordSum(LittleEndian, s))
    ensures WordSum(LittleEndian, s) == 0 <==> WordSum(BigEndian, s) == 0
  {
    if s == [] {
      assert 0 == 0 + Times(0);
    } else {
      SumsCongruent(s[2..]);
      CongruentStep(s[0], s[1], WordSum(BigEndian, s[2..]), WordSum(LittleEndian, s[2..]));
    }
  }

  lemma SwappedFold(big: nat, little: nat, f: word, g: word)
    requires Congruent(256 * big, little) && (little == 0 <==> big == 0)
    requires IsFolded(big, f) && IsFolded(little, g)
    ensures g == Swap(f)
  {
    SwapCongruent(f);
    var j :| big == f + Times(j);
    var k :| 256 * big == little + Times(k);
    assert little == Swap(f) + Times(f / 256 + 256 * j - k);
    FoldedUnique(little, g, Swap(f));
  }

  lemma ComplementSwap(f: word)
    ensures Store16(LittleEndian, Complement(Swap(f))) == Store16(BigEndian, Complement(f))
  {
    var hi, lo := f / 256, f % 256;
    WordBytes(255 - hi, 255 - lo);
    WordBytes(255 - lo, 255 - hi);
    assert Complement(f) == Word16(255 - hi, 255 - lo);
    assert Complement(Swap(f)) == Word16(255 - lo, 255 - hi);
  }

  /** The two machines store the same bytes exactly if one folded sum is the other one swapped. */
  lemma StoresAgree(f: word, g: word)
    ensures Store16(LittleEndian, Complement(g)) == Store16(BigEndian, Complement(f)) <==> g == Swap(f)
  {
    hide Swap;
    ComplementSwap(f);
    var a, b := Store16(LittleEndian, Complement(g)), Store16(LittleEndian, Complement(Swap(f)));
    if a == b {
      assert Load16(LittleEndian, a[0], a[1]) == Complement(g) == Complement(Swap(f));
    }
  }

  lemma SwappedExact(big: nat, little: nat, f: word, g: word)
    requires IsFolded(big, f) && IsFolded(little, g)
    ensures g == Swap(f) <==> Congruent(256 * big, little) && (little == 0 <==> big == 0)
  {
    hide Swap;
    if g == Swap(f) {
      SwapCongruent(f);
      var j :| big == f + Times(j);
      var k :| little == g + Times(k);
      assert 256 * big == little + Times(256 * j - k + f / 256);
    }
    if Congruent(256 * big, little) && (little == 0 <==> big == 0) {
      SwappedFold(big, little, f, g);
    }
  }

  /** How often the 32-bit accumulator overflows, and what is left in it. */
  function Overflows(order: Order, s: seq<byte>): nat {
    WordSum(order, s) / TWO32
  }

  function Left(order: Order, s: seq<byte>): nat {
    WordSum(order, s) % TWO32
  }

  /** 2 to the power of 32 is one more than a multiple of 65535. */
  lemma OverflowLost(n: nat)
    ensures n == n % TWO32 + n / TWO32 + Times(65537 * (n / TWO32))
  {
  }

  lemma LeftCongruent(big: nat, little: nat)
    requires Congruent(256 * big, little)
    ensures Congruent(256 * (big % TWO32), little % TWO32) <==> Congruent(256 * (big / TWO32), little / TWO32)
  {
    var k :| 256 * big == little + Times(k);
    OverflowLost(big);
    OverflowLost(little);
    var a, b := big / TWO32, little / TWO32;
    var m := k + 65537 * b - 256 * 65537 * a;
    assert 256 * (big % TWO32) + 256 * a == little % TWO32 + b + Times(m);
    LeftShift(256 * (big % TWO32), little % TWO32, 256 * a, b, m);
  }

  lemma LeftShift(x: int, y: int, u: int, v: int, m: int)
    requires x + u == y + v + Times(m)
    ensures Congruent(x, y) <==> Congruent(u, v)
  {
    if Congruent(x, y) {
      var j :| x == y + Times(j);
      assert u == v + Times(m - j);
    }
    if Congruent(u, v) {
      var j :| u == v + Times(j);
      assert x == y + Times(m - j);
    }
  }

  lemma LeftFolds(order: Order, s: seq<byte>)
    ensures IsFolded(Left(order, s), Complement(Sum(order, s)))
  {
    hide Fold;
    FoldIsFolded(Left(order, s));
    assert Complement(Complement(Fold(Left(order, s)))) == Fold(Left(order, s));
  }

  /** Both kinds of machine put the same two bytes into the header exactly if the overflows of the one,
      times 256, are those of the other modulo 65535, and nothing is left in the one accumulator exactly
      if nothing is left in the other. */
  lemma ByteOrderExact(s: seq<byte>)
    requires |s| % 2 == 0
    ensures Store16(LittleEndian, Sum(LittleEndian, s)) == Store16(BigEndian, Sum(BigEndian, s)) <==>
              Congruent(256 * Overflows(BigEndian, s), Overflows(LittleEndian, s))
              && (Left(LittleEndian, s) == 0 <==> Left(BigEndian, s) == 0)
  {
    hide Sum, Swap, WordSum;
    SumsCongruent(s);
    LeftFolds(BigEndian, s);
    LeftFolds(LittleEndian, s);
    var f, g := Complement(Sum(BigEndian, s)), Complement(Sum(LittleEndian, s));
    assert Complement(f) == Sum(BigEndian, s) && Complement(g) == Sum(LittleEndian, s);
    StoresAgree(f, g);
    SwappedExact(Left(BigEndian, s), Left(LittleEndian, s), f, g);
    LeftCongruent(WordSum(BigEndian, s), WordSum(LittleEndian, s));
  }

  /** So up to 65537 words it does not matter. */
  lemma ByteOrderIndependent(s: seq<byte>)
    requires |s| % 2 == 0 && |s| <= 2 * 65537
    ensures Store16(LittleEndian, Sum(LittleEndian, s)) == Store16(BigEndian, Sum(BigEndian, s))
  {
    hide Sum, WordSum;
    SumFits(BigEndian, s);
    SumFits(LittleEndian, s);
    SumsCongruent(s);
    ByteOrderExact(s);
    assert 256 * 0 == 0 + Times(0);
  }

  /** FF 00, n times. */
  function HighBytes(n: nat): seq<byte> {
    seq(2 * n, i => if i % 2 == 0 then 0xFF else 0)
  }

  lemma {:induction false} HighBytesSum(n: nat)
    ensures WordSum(BigEndian, HighBytes(n)) == 0xFF00 * n && WordSum(LittleEndian, HighBytes(n)) == 0xFF * n
  {
    if n > 0 {
      assert HighBytes(n)[2..] == HighBytes(n - 1);
      HighBytesSum(n - 1);
    }
  }

  /** For 65800 words FF 00 it does. */
  lemma OrderMatters()
    ensures var s := HighBytes(65800);
            |s| % 2 == 0 && Store16(LittleEndian, Sum(LittleEndian, s)) != Store16(BigEndian, Sum(BigEndian, s))
  {
    hide Sum, WordSum, HighBytes;
    var s := HighBytes(65800);
    HighBytesLength(65800);
    HighBytesSum(65800);
    ByteOrderExact(s);
    assert Overflows(BigEndian, s) == 1 && Overflows(LittleEndian, s) == 0;
    NotCongruent256();
  }

  lemma HighBytesLength(n: nat)
    ensures |HighBytes(n)| == 2 * n
  {
  }

  lemma NotCongruent256()
    ensures !Congruent(256 * 1, 0)
  {
    assert forall k :: 256 != Times(k);
  }
}

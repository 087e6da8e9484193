/** SLIP (RFC 1055): the byte stuffing netio.c and slip.c share, and the two ways of undoing it. */
module Slip {
  import opened Bytes

  const END: byte := 0xC0
  const ESC: byte := 0xDB
  const ESCAPED_END: byte := 0xDC
  const ESCAPED_ESC: byte := 0xDD

  predicate Special(b: byte) {
    b == END || b == ESC
  }

  function EncodeByte(b: byte): seq<byte> {
    if b == END then [ESC, ESCAPED_END]
    else if b == ESC then [ESC, ESCAPED_ESC]
    else [b]
  }

  function Encode(s: seq<byte>): seq<byte> {
    if s == [] then [] else EncodeByte(s[0]) + Encode(s[1..])
  }

  /** How many bytes of s need an escape. */
  function Specials(s: seq<byte>): (n: nat)
    ensures n <= |s|
  {
    if s == [] then 0 else (if Special(s[0]) then 1 else 0) + Specials(s[1..])
  }

  lemma {:induction false} EncodeLength(s: seq<byte>)
    ensures |Encode(s)| == |s| + Specials(s)
  {
    if s != [] {
      EncodeLength(s[1..]);
    }
  }

  /** Stuffing works byte by byte, so segments may be stuffed one at a time. */
  lemma {:induction false} EncodeConcat(a: seq<byte>, b: seq<byte>)
    ensures Encode(a + b) == Encode(a) + Encode(b)
  {
    if a == [] {
      assert a + b == b;
    } else {
      assert (a + b)[1..] == a[1..] + b;
      EncodeConcat(a[1..], b);
    }
  }

  lemma {:induction false} SpecialsConcat(a: seq<byte>, b: seq<byte>)
    ensures Specials(a + b) == Specials(a) + Specials(b)
  {
    if a == [] {
      assert a + b == b;
    } else {
      assert (a + b)[1..] == a[1..] + b;
      SpecialsConcat(a[1..], b);
    }
  }

  /** One pass of either encoder loop. */
  lemma EncodeStep(s: seq<byte>, i: nat)
    requires i < |s|
    ensures Encode(s[..i + 1]) == Encode(s[..i]) + EncodeByte(s[i])
  {
    assert s[..i + 1] == s[..i] + [s[i]];
    EncodeConcat(s[..i], [s[i]]);
    assert Encode([s[i]]) == EncodeByte(s[i]) + Encode([]);
  }

  lemma EncodeGrows(s: seq<byte>, i: nat, j: nat)
    requires i <= j <= |s|
    ensures j - i <= |Encode(s[..j])| - |Encode(s[..i])| <= 2 * (j - i)
  {
    assert s[..j] == s[..i] + s[i..j];
    EncodeConcat(s[..i], s[i..j]);
    EncodeLength(s[i..j]);
  }

  // ---------------------------------------------------------------------------------------
  // The encoder loop, of which both programs have a copy
  // ---------------------------------------------------------------------------------------

  /** How many bytes the loop takes before its output reaches the limit. */
  function Taken(s: seq<byte>, from: nat, limit: int): (n: nat)
    requires from <= |s|
    ensures from <= n <= |s|
    ensures forall i :: from <= i < n ==> |Encode(s[..i])| < limit
    ensures n < |s| ==> |Encode(s[..n])| >= limit
    decreases |s| - from
  {
    if from < |s| && |Encode(s[..from])| < limit then Taken(s, from + 1, limit) else from
  }

  /** It takes every byte exactly if all bytes but the last leave room. */
  lemma TakenExact(s: seq<byte>, limit: int)
    ensures Taken(s, 0, limit) == |s| <==> s == [] || |Encode(s[..|s| - 1])| < limit
    ensures |Encode(s)| <= limit ==> Taken(s, 0, limit) == |s|
    ensures |Encode(s[..Taken(s, 0, limit)])| <= (if limit < 0 then 0 else limit + 1)
  {
    var n := Taken(s, 0, limit);
    assert s[..|s|] == s;
    if n < |s| {
      EncodeGrows(s, n, |s| - 1);
      EncodeGrows(s, n, |s|);
      EncodeGrows(s, |s| - 1, |s|);
    } else if s != [] {
      EncodeGrows(s, |s| - 1, |s|);
    }
    if n > 0 {
      EncodeGrows(s, n - 1, n);
    }
  }

  lemma EncodeNothing(s: seq<byte>)
    ensures Encode(s[..0]) == []
  {
  }

  /** One pass of the loop writes one byte or two. */
  method EncodeOne(dst: array<byte>, at: nat, b: byte) returns (k: nat)
    requires at + 1 < dst.Length
    modifies dst
    ensures k == |EncodeByte(b)| && dst[..at + k] == old(dst[..at]) + EncodeByte(b)
  {
    if b == END {
      dst[at] := ESC;
      dst[at + 1] := ESCAPED_END;
      k := 2;
    } else if b == ESC {
      dst[at] := ESC;
      dst[at + 1] := ESCAPED_ESC;
      k := 2;
    } else {
      dst[at] := b;
      k := 1;
    }
  }

  /** n bytes are taken; what they are stuffed to is written from `at` on, never past at + limit. */
  method EncodeInto(dst: array<byte>, at: nat, limit: int, src: array<byte>, size: nat) returns (n: nat, total: nat)
    requires size <= src.Length && at + limit < dst.Length && at <= dst.Length && dst != src
    modifies dst
    ensures n == Taken(src[..size], 0, limit) && at + total <= dst.Length
    ensures dst[..at + total] == old(dst[..at]) + Encode(src[..size][..n])
  {
    hide Encode;
    n, total := 0, 0;
    ghost var s, front := src[..size], dst[..at];
    EncodeNothing(s);
    while n < size && total < limit
      invariant n <= size && at + total <= dst.Length
      invariant src[..size] == s && Taken(s, 0, limit) == Taken(s, n, limit)
      invariant dst[..at + total] == front + Encode(s[..n])
    {
      EncodeStep(s, n);
      var k := EncodeOne(dst, at + total, src[n]);
      n, total := n + 1, total + k;
    }
  }

  // ---------------------------------------------------------------------------------------
  // Streams of frames, as a receiver of RFC 1055 sees them
  // ---------------------------------------------------------------------------------------

  /** The reading of an escaped body, by the numbers of RFC 1055; None if it holds END or a broken escape. */
  function Unescape(s: seq<byte>): Option<seq<byte>> {
    if s == [] then Some([])
    else if s[0] == 192 then None
    else if s[0] == 219 then
      if |s| < 2 || (s[1] != 220 && s[1] != 221) then None
      else Prepend(if s[1] == 220 then 192 else 219, Unescape(s[2..]))
    else Prepend(s[0], Unescape(s[1..]))
  }

  function Prepend(b: byte, r: Option<seq<byte>>): Option<seq<byte>> {
    match r
    case None => None
    case Some(s) => Some([b] + s)
  }

  /** The bodies before each END of a stream; an unterminated rest is not a frame yet. */
  function Cut(stream: seq<byte>): seq<seq<byte>> {
    CutFrom([], stream)
  }

  function CutFrom(body: seq<byte>, stream: seq<byte>): seq<seq<byte>>
    decreases |stream|
  {
    if stream == [] then []
    else if stream[0] == 192 then [body] + CutFrom([], stream[1..])
    else CutFrom(body + [stream[0]], stream[1..])
  }

  function Frame(packet: seq<byte>): seq<byte> {
    Encode(packet) + [END]
  }

  function Stream(packets: seq<seq<byte>>): seq<byte> {
    if packets == [] then [] else Frame(packets[0]) + Stream(packets[1..])
  }

  /** What a receiver makes of a stream: each body unescaped. */
  function Receive(stream: seq<byte>): seq<Option<seq<byte>>> {
    var bodies := Cut(stream);
    seq(|bodies|, i requires 0 <= i < |bodies| => Unescape(bodies[i]))
  }

  lemma {:induction false} EncodeHasNoEnd(s: seq<byte>)
    ensures END !in Encode(s)
  {
    if s != [] {
      EncodeHasNoEnd(s[1..]);
    }
  }

  lemma {:induction false} UnescapeEncode(s: seq<byte>)
    ensures Unescape(Encode(s)) == Some(s)
  {
    if s != [] {
      UnescapeEncode(s[1..]);
      var e := EncodeByte(s[0]);
      assert Encode(s)[|e|..] == Encode(s[1..]);
      assert [s[0]] + s[1..] == s;
    }
  }

  lemma EncodeInjective(a: seq<byte>, b: seq<byte>)
    requires Encode(a) == Encode(b)
    ensures a == b
  {
    UnescapeEncode(a);
    UnescapeEncode(b);
  }

  /** A body without END is read up to the END that follows it. */
  lemma {:induction false} CutBody(pre: seq<byte>, body: seq<byte>, rest: seq<byte>)
    requires END !in body
    ensures CutFrom(pre, body + [END] + rest) == [pre + body] + CutFrom([], rest)
    decreases |body|
  {
    var s := body + [END] + rest;
    if body == [] {
      assert s[1..] == rest;
      assert pre + body == pre;
    } else {
      assert s[1..] == body[1..] + [END] + rest;
      CutBody(pre + [body[0]], body[1..], rest);
      assert pre + [body[0]] + body[1..] == pre + body;
    }
  }

  lemma {:induction false} CutStream(packets: seq<seq<byte>>)
    ensures Cut(Stream(packets)) == seq(|packets|, i requires 0 <= i < |packets| => Encode(packets[i]))
  {
    if packets != [] {
      EncodeHasNoEnd(packets[0]);
      CutBody([], Encode(packets[0]), Stream(packets[1..]));
      assert [] + Encode(packets[0]) == Encode(packets[0]);
      CutStream(packets[1..]);
    }
  }

  /** Any list of packets, framed and concatenated, is received as exactly that list. */
  lemma {:induction false} StreamRoundTrip(packets: seq<seq<byte>>)
    ensures Receive(Stream(packets)) == seq(|packets|, i requires 0 <= i < |packets| => Some(packets[i]))
  {
    CutStream(packets);
    forall i | 0 <= i < |packets|
      ensures Unescape(Encode(packets[i])) == Some(packets[i])
    {
      UnescapeEncode(packets[i]);
    }
  }

  // ---------------------------------------------------------------------------------------
  // The decoder of netio.c, which counts output bytes and does not look for END
  // ---------------------------------------------------------------------------------------

  datatype Decoded = Decoded(out: seq<byte>, ok: bool)

  /** n output bytes decoded from the start of mem; it stops early at a broken escape. Each output
      byte takes at most two bytes of memory. */
  function Decode(mem: seq<byte>, n: nat): (d: Decoded)
    requires 2 * n <= |mem|
    ensures |d.out| <= n && (d.ok <==> |d.out| == n)
  {
    if n == 0 then Decoded([], true)
    else if mem[0] == ESC then
      if mem[1] == ESCAPED_END then Onto([END], Decode(mem[2..], n - 1))
      else if mem[1] == ESCAPED_ESC then Onto([ESC], Decode(mem[2..], n - 1))
      else Decoded([], false)
    else Onto([mem[0]], Decode(mem[1..], n - 1))
  }

  function Onto(s: seq<byte>, d: Decoded): Decoded {
    d.(out := s + d.out)
  }

  /** One stuffed byte gives one output byte. */
  lemma DecodeStep(b: byte, rest: seq<byte>, n: nat)
    requires 2 * (n + 1) <= |EncodeByte(b)| + |rest|
    ensures 2 * n <= |rest|
    ensures Decode(EncodeByte(b) + rest, n + 1) == Onto([b], Decode(rest, n))
  {
    var e := EncodeByte(b);
    assert (e + rest)[|e|..] == rest;
  }

  lemma OntoOnto(a: seq<byte>, b: seq<byte>, d: Decoded)
    ensures Onto(a, Onto(b, d)) == Onto(a + b, d)
  {
    assert a + (b + d.out) == a + b + d.out;
  }

  /** The decoder undoes the stuffing of x and then goes on reading whatever lies behind it. */
  lemma {:induction false} DecodeEncoded(x: seq<byte>, rest: seq<byte>, m: nat)
    requires 2 * (|x| + m) <= |Encode(x)| + |rest|
    ensures 2 * m <= |rest|
    ensures Decode(Encode(x) + rest, |x| + m) == Onto(x, Decode(rest, m))
  {
    if x == [] {
      assert Encode(x) + rest == rest;
      assert x + Decode(rest, m).out == Decode(rest, m).out;
    } else {
      assert Encode(x) + rest == EncodeByte(x[0]) + (Encode(x[1..]) + rest);
      DecodeStep(x[0], Encode(x[1..]) + rest, |x| - 1 + m);
      DecodeEncoded(x[1..], rest, m);
      OntoOnto([x[0]], x[1..], Decode(rest, m));
      assert [x[0]] + x[1..] == x;
    }
  }

  /** Decoding a received frame of x. The read returned the frame itself, END included, so the loop
      produces one output byte per byte of the frame: x, then END, then as many items of foreign
      memory as x had escapes. It fails exactly when one of those foreign items is a broken escape. */
  lemma {:induction false} DecodeFrame(x: seq<byte>, tail: seq<byte>)
    requires |Frame(x)| <= |tail|
    ensures 2 * Specials(x) <= |tail|
    ensures Decode(Frame(x) + tail, |Frame(x)|) == Onto(x + [END], Decode(tail, Specials(x)))
  {
    EncodeLength(x);
    var k := Specials(x);
    var behind := [END] + tail;
    assert Frame(x) + tail == Encode(x) + behind;
    DecodeEncoded(x, behind, k + 1);
    DecodeEnd(tail, k);
    OntoOnto(x, [END], Decode(tail, k));
  }

  /** The END of a frame is an ordinary byte to this decoder. */
  lemma DecodeEnd(tail: seq<byte>, n: nat)
    requires 2 * (n + 1) <= 1 + |tail|
    ensures Decode([END] + tail, n + 1) == Onto([END], Decode(tail, n))
  {
    assert ([END] + tail)[1..] == tail;
  }

  /** Without escapes nothing foreign is read: the result is x and its END, always. */
  lemma DecodePlainFrame(x: seq<byte>, tail: seq<byte>)
    requires |Frame(x)| <= |tail| && Specials(x) == 0
    ensures Decode(Frame(x) + tail, |Frame(x)|) == Decoded(x + [END], true)
  {
    DecodeFrame(x, tail);
    assert x + [END] + [] == x + [END];
  }

  /** An escape that stands for nothing stops the decoder where it is, whatever follows. */
  lemma DecodeBroken(x: seq<byte>, b: byte, rest: seq<byte>, n: nat)
    requires b != 220 && b != 221 && n > 0 && 2 * (|x| + n) <= |Encode(x) + ([219, b] + rest)|
    ensures Decode(Encode(x) + ([219, b] + rest), |x| + n) == Decoded(x, false)
  {
    var broken := [219, b] + rest;
    DecodeEncoded(x, broken, n);
    assert broken[0] == 219 && broken[1] == b;
    assert Decode(broken, n) == Decoded([], false);
    assert x + [] == x;
  }
}

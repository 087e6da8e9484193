/** What the server makes of a frame that comes behind the first part of another one, which a timeout has
    cut off: both up to the END are one packet for it. */
module Remnants {
  import opened Bytes
  import opened Slip
  import opened Checksum
  import opened Packets

  lemma UnescapeByte(b: byte, rest: seq<byte>)
    ensures Unescape(EncodeByte(b) + rest) == Prepend(b, Unescape(rest))
  {
    var e := EncodeByte(b);
    assert (e + rest)[|e|..] == rest;
  }

  function Prefixed(p: seq<byte>, r: Option<seq<byte>>): Option<seq<byte>> {
    match r
    case None => None
    case Some(s) => Some(p + s)
  }

  lemma PrefixedBy(b: byte, p: seq<byte>, r: Option<seq<byte>>)
    ensures Prepend(b, Prefixed(p, r)) == Prefixed([b] + p, r) && Prefixed([], r) == r
  {
    if r.Some? {
      assert [b] + (p + r.value) == [b] + p + r.value && [] + r.value == r.value;
    }
  }

  /** Stuffed bytes in front of others do not change how those are read. */
  lemma {:induction false} UnescapeBehind(p: seq<byte>, q: seq<byte>)
    ensures Unescape(Encode(p) + q) == Prefixed(p, Unescape(q))
  {
    hide Unescape, Prefixed, EncodeByte, Prepend;
    if p == [] {
      assert Encode(p) + q == q;
      PrefixedBy(0, [], Unescape(q));
    } else {
      assert Encode(p) + q == EncodeByte(p[0]) + (Encode(p[1..]) + q);
      UnescapeByte(p[0], Encode(p[1..]) + q);
      UnescapeBehind(p[1..], q);
      PrefixedBy(p[0], p[1..], Unescape(q));
      assert [p[0]] + p[1..] == p;
    }
  }

  /** A frame behind the remnant is read together with it. */
  lemma OneBody(remnant: seq<byte>, x: seq<byte>)
    requires END !in remnant
    ensures Receive(remnant + Frame(x)) == [Unescape(remnant + Encode(x))]
  {
    hide Unescape, Encode;
    EncodeHasNoEnd(x);
    CutBody([], remnant + Encode(x), []);
    assert remnant + Frame(x) == remnant + Encode(x) + [END] + [];
    assert [] + (remnant + Encode(x)) == remnant + Encode(x);
  }

  /** What the server makes of payload b behind the first k bytes of the datagram of payload a. */
  function Behind(a: seq<byte>, k: nat, b: seq<byte>): (x: seq<byte>)
    requires k <= |Datagram(BigEndian, a)|
  {
    Datagram(BigEndian, a)[..k] + Datagram(BigEndian, b)
  }

  lemma Merged(a: seq<byte>, k: nat, b: seq<byte>)
    requires k <= |Datagram(BigEndian, a)|
    ensures Receive(Encode(Datagram(BigEndian, a)[..k]) + FrameOf(b)) == [Some(Behind(a, k, b))]
  {
    hide Unescape, Encode, Receive, Datagram;
    var p, x := Datagram(BigEndian, a)[..k], Datagram(BigEndian, b);
    EncodeHasNoEnd(p);
    OneBody(Encode(p), x);
    UnescapeBehind(p, Encode(x));
    UnescapeEncode(x);
  }

  /** The front of the two is that of the first datagram. */
  lemma BehindFront(a: seq<byte>, k: nat, b: seq<byte>)
    requires k <= |Datagram(BigEndian, a)|
    ensures forall j :: 0 <= j < k ==> Behind(a, k, b)[j] == Datagram(BigEndian, a)[j]
    ensures |Behind(a, k, b)| == k + |Datagram(BigEndian, b)|
  {
    hide Datagram;
  }

  /** The server can only take the two for a packet if together they are as long as the first one says. */
  lemma MergedLength(a: seq<byte>, k: nat, b: seq<byte>)
    requires HDR_LEN + |a| < 0x10000 && 4 <= k <= |Datagram(BigEndian, a)|
    requires k + |Datagram(BigEndian, b)| != |Datagram(BigEndian, a)|
    ensures Deliver(Encode(Datagram(BigEndian, a)[..k]) + FrameOf(b)) == None
  {
    hide Receive, Encode, Datagram, Behind, Intact;
    Merged(a, k, b);
    DatagramBytes(a);
    BehindFront(a, k, b);
    var d, x := Datagram(BigEndian, a), Behind(a, k, b);
    assert d[2] == d[..10][2] && d[3] == d[..10][3];
    assert Field(x, 2) == |d|;
  }

  /** A cut within an escape spoils the frame behind it. */
  lemma CutInEscape(a: seq<byte>, k: nat, b: seq<byte>)
    requires k <= |Datagram(BigEndian, a)|
    ensures Deliver(Encode(Datagram(BigEndian, a)[..k]) + [ESC] + FrameOf(b)) == None
  {
    hide Encode, Receive, Datagram;
    var p, x := Datagram(BigEndian, a)[..k], Datagram(BigEndian, b);
    EncodeHasNoEnd(p);
    OneBody(Encode(p) + [ESC], x);
    assert Encode(p) + [ESC] + Encode(x) == Encode(p) + ([ESC] + Encode(x));
    UnescapeBehind(p, [ESC] + Encode(x));
    FirstByte(b);
    assert Encode(x) != [] && Encode(x)[0] == 0x45;
  }

  lemma FirstByte(b: seq<byte>)
    ensures var e := Encode(Datagram(BigEndian, b)); e != [] && e[0] == 0x45
  {
    var x := Datagram(BigEndian, b);
    assert x[0] == 0x45;
  }

  /** Behind at least 28 bytes of a cut datagram the server takes the two for a packet exactly if together
      they are as long as the first datagram was; it then gets the cut payload, continued by the headers and
      the payload of the second. */
  lemma MergedExact(a: seq<byte>, k: nat, b: seq<byte>)
    requires HDR_LEN + |a| < 0x10000 && HDR_LEN <= k <= |Datagram(BigEndian, a)|
    ensures Accept(Behind(a, k, b)) ==
              if k + |Datagram(BigEndian, b)| == |Datagram(BigEndian, a)|
              then Some(Arrival([127, 0, 0, 1], 4711, a[..k - HDR_LEN] + Datagram(BigEndian, b))) else None
  {
    hide Datagram, Behind, Intact;
    DatagramBytes(a);
    BehindFront(a, k, b);
    var d, x := Datagram(BigEndian, a), Behind(a, k, b);
    assert d[2] == d[..10][2] && d[3] == d[..10][3];
    assert x[..10] == d[..10] && x[12..20] == d[12..20] && x[20..28] == d[20..28] && x[..20] == d[..20];
    if |x| == |d| {
      BehindPayload(a, k, b);
      AcceptBytes(x);
    } else {
      assert Field(x, 2) == |d|;
    }
  }

  lemma BehindPayload(a: seq<byte>, k: nat, b: seq<byte>)
    requires HDR_LEN + |a| < 0x10000 && HDR_LEN <= k <= |Datagram(BigEndian, a)|
    ensures Behind(a, k, b)[28..] == a[..k - HDR_LEN] + Datagram(BigEndian, b)
  {
    hide Datagram, Intact;
    DatagramBytes(a);
    var d := Datagram(BigEndian, a);
    assert d[28..k] == d[28..][..k - HDR_LEN];
  }
}

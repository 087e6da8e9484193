/** The packets of an upload: TFTP (RFC 1350) in UDP in IP in a SLIP frame, as netio.c lays them out,
    and what the two ends read out of them. */
module Packets {
  import opened Bytes
  import opened Slip
  import opened Checksum

  const MAX_BUFFER_SIZE := 1024
  const MAX_PATH_LEN := 256
  const TFTP_MAX_DATA_SIZE := 512

  const OP_WRQ: word := 2
  const OP_DATA: word := 3
  const OP_ACK: word := 4
  const OP_ERROR: word := 5

  const IP_HDR_LEN := 20
  const UDP_HDR_LEN := 8
  const HDR_LEN := 28

  const ERROR_NO_FREE_STORE := 103
  const ERROR_BAD_NUMBER := 115
  const ERROR_BUFFER_OVERFLOW := 303

  // ---------------------------------------------------------------------------------------
  // TFTP packets sent by the handler
  // ---------------------------------------------------------------------------------------

  datatype Packet = Wrq(name: seq<byte>) | Data(blknum: word, bytes: seq<byte>)

  /** What fits the name field of a FileTransfer. */
  type FileName = s: seq<byte> | 0 !in s && |s| <= MAX_PATH_LEN - 1

  const NETASCII: seq<byte> := [78, 69, 84, 65, 83, 67, 73, 73]

  function RequestBytes(opcode: word, name: seq<byte>): (s: seq<byte>)
    ensures |s| == |name| + 12
  {
    Wire16(opcode) + name + [0] + NETASCII + [0]
  }

  function DataBytes(blknum: word, bytes: seq<byte>): (s: seq<byte>)
    ensures |s| == |bytes| + 4
  {
    Wire16(OP_DATA) + Wire16(blknum) + bytes
  }

  function TftpBytes(p: Packet): seq<byte> {
    match p
    case Wrq(name) => RequestBytes(OP_WRQ, name)
    case Data(blknum, bytes) => DataBytes(blknum, bytes)
  }

  // ---------------------------------------------------------------------------------------
  // UDP and IP headers
  // ---------------------------------------------------------------------------------------

  function NetField(order: Order, n: nat): (s: seq<byte>)
    ensures |s| == 2
  {
    Store16(order, Htons(order, n % 0x10000))
  }

  /** Header of a UDP packet with n payload bytes; its checksum is left 0. */
  function UdpHeader(order: Order, n: nat): (s: seq<byte>)
    ensures |s| == UDP_HDR_LEN
  {
    NetField(order, 4711) + NetField(order, 69) + NetField(order, UDP_HDR_LEN + n) + [0, 0]
  }

  /** The fields before the checksum of an IP header for n bytes of data. The two nibbles of the first
      byte, version and header length in words, are declared in the order of the machine. */
  function IpFront(order: Order, n: nat): (s: seq<byte>)
    ensures |s| == 10
  {
    [16 * 4 + IP_HDR_LEN / 4, 0] + NetField(order, IP_HDR_LEN + n) + [0, 0] + [0, 0] + [255, 17]
  }

  const IP_BACK: seq<byte> := [127, 0, 0, 1, 127, 0, 0, 99]

  function IpHeader(order: Order, n: nat): (s: seq<byte>)
    ensures |s| == IP_HDR_LEN
  {
    IpFront(order, n) + Store16(order, Sum(order, IpFront(order, n) + [0, 0] + IP_BACK)) + IP_BACK
  }

  function UdpPacket(order: Order, payload: seq<byte>): seq<byte> {
    UdpHeader(order, |payload|) + payload
  }

  function IpPacket(order: Order, data: seq<byte>): seq<byte> {
    IpHeader(order, |data|) + data
  }

  function Datagram(order: Order, payload: seq<byte>): (s: seq<byte>)
    ensures |s| == HDR_LEN + |payload|
  {
    IpPacket(order, UdpPacket(order, payload))
  }

  lemma NetFieldOnWire(order: Order, n: nat)
    ensures NetField(order, n) == Wire16(n % 0x10000)
  {
    HtonsStore(order, n % 0x10000);
  }

  /** A recipient who sums the header words gets 0, on either kind of machine. */
  lemma HeaderVerifies(order: Order, n: nat)
    ensures Sum(order, IpHeader(order, n)) == 0
  {
    ChecksumVerifies(order, IpFront(order, n), IP_BACK);
  }

  lemma HeadersOrderIndependent(n: nat)
    ensures IpHeader(LittleEndian, n) == IpHeader(BigEndian, n)
    ensures UdpHeader(LittleEndian, n) == UdpHeader(BigEndian, n)
  {
    NetFieldOnWire(LittleEndian, IP_HDR_LEN + n);
    NetFieldOnWire(BigEndian, IP_HDR_LEN + n);
    assert IpFront(LittleEndian, n) == IpFront(BigEndian, n);
    ByteOrderIndependent(IpFront(BigEndian, n) + [0, 0] + IP_BACK);
    NetFieldOnWire(LittleEndian, UDP_HDR_LEN + n);
    NetFieldOnWire(BigEndian, UDP_HDR_LEN + n);
    NetFieldOnWire(LittleEndian, 4711);
    NetFieldOnWire(BigEndian, 4711);
    NetFieldOnWire(LittleEndian, 69);
    NetFieldOnWire(BigEndian, 69);
  }

  /** The same payload gives the same datagram on both kinds of machine. */
  lemma DatagramOrderIndependent(payload: seq<byte>)
    ensures Datagram(LittleEndian, payload) == Datagram(BigEndian, payload)
  {
    HeadersOrderIndependent(|payload|);
    HeadersOrderIndependent(UDP_HDR_LEN + |payload|);
  }

  // ---------------------------------------------------------------------------------------
  // Frames and their capacity
  // ---------------------------------------------------------------------------------------

  /** The frame the Amiga, a big-endian machine, puts on the serial line. */
  function FrameOf(payload: seq<byte>): seq<byte> {
    Frame(Datagram(BigEndian, payload))
  }

  /** The stuffed datagram and its END fit the frame buffer. */
  predicate Fits(payload: seq<byte>) {
    |Datagram(BigEndian, payload)| + Specials(Datagram(BigEndian, payload)) <= MAX_BUFFER_SIZE - 1
  }

  lemma FitsFrame(payload: seq<byte>)
    ensures Fits(payload) <==> |FrameOf(payload)| <= MAX_BUFFER_SIZE
  {
    EncodeLength(Datagram(BigEndian, payload));
  }

  /** Write requests for any name a FileTransfer can hold fit, even if every byte needs an escape. */
  lemma RequestFits(name: seq<byte>)
    requires |name| <= MAX_PATH_LEN - 1
    ensures Fits(TftpBytes(Wrq(name)))
  {
  }

  /** A full data packet fits exactly when its datagram has at most 479 special bytes. */
  lemma FullBlockFits(blknum: word, bytes: seq<byte>)
    requires |bytes| == TFTP_MAX_DATA_SIZE
    ensures var payload := TftpBytes(Data(blknum, bytes));
            Fits(payload) <==> Specials(Datagram(BigEndian, payload)) <= 479
  {
  }

  // ---------------------------------------------------------------------------------------
  // The server's end of the line
  // ---------------------------------------------------------------------------------------

  /** The most a DATA packet carries (RFC 1350, section 5). */
  const BLOCK_SIZE := 512

  /** A field of two bytes, most significant first. */
  function Field(x: seq<byte>, at: nat): word
    requires at + 1 < |x|
  {
    var high: int, low: int := x[at], x[at + 1];
    256 * high + low
  }

  /** The words of s added up, an odd last byte padded with a zero (RFC 1071, section 1). */
  function Words(s: seq<byte>): nat {
    if s == [] then 0
    else if |s| == 1 then Field([s[0], 0], 0)
    else Field(s, 0) + Words(s[2..])
  }

  /** What the one's-complement sum tells of data that hold their own checksum. */
  predicate Intact(s: seq<byte>) {
    Words(s) > 0 && Words(s) % 65535 == 0
  }

  /** A UDP packet that has come to a port: the address and port to answer to, and its payload. */
  datatype Arrival = Arrival(sender: seq<byte>, port: word, payload: seq<byte>)

  /** What the host 127.0.0.99 takes for its TFTP port: an unfragmented datagram of 20 header bytes that has
      not expired, with intact header and the right lengths (RFC 791, section 3.1). The UDP checksum is 0 or
      that of packet and pseudo header (RFC 768). */
  function Accept(x: seq<byte>): Option<Arrival> {
    if |x| < 28 || x[0] != 0x45 || Field(x, 2) != |x| || !Intact(x[..20]) then None
    else if Field(x, 6) % 0x4000 != 0 || x[8] == 0 || x[9] != 17 then None
    else if x[16..20] != [127, 0, 0, 99] || Field(x, 22) != 69 || Field(x, 24) != |x| - 20 then None
    else if Field(x, 26) != 0 && !Intact(x[12..20] + [0, 17] + x[24..26] + x[20..]) then None
    else Some(Arrival(x[12..16], Field(x, 20), x[28..]))
  }

  /** Length of the C string at the start of s. */
  function StrLen(s: seq<byte>): (n: nat)
    ensures n <= |s| && 0 !in s[..n] && (n < |s| ==> s[n] == 0)
  {
    if s == [] || s[0] == 0 then 0 else 1 + StrLen(s[1..])
  }

  /** The transfer modes of RFC 1350, section 1. */
  datatype Mode = Netascii | Octet | Mail

  function Lower(b: byte): byte {
    if 65 <= b <= 90 then b + 32 else b
  }

  /** The mode a string spells, in any case of letters. */
  function ModeOf(s: seq<byte>): Option<Mode> {
    var name := seq(|s|, i requires 0 <= i < |s| => Lower(s[i]));
    if name == [110, 101, 116, 97, 115, 99, 105, 105] then Some(Netascii)
    else if name == [111, 99, 116, 101, 116] then Some(Octet)
    else if name == [109, 97, 105, 108] then Some(Mail)
    else None
  }

  /** What a write-side server reads out of a payload; a request also has a mode. */
  datatype Parsed = Parsed(packet: Packet, mode: Option<Mode>)

  function ParseRequest(b: seq<byte>): Option<Parsed>
    requires |b| >= 4
  {
    var n := StrLen(b[2..]);
    var rest := b[2 + n..];
    if |rest| < 2 || StrLen(rest[1..]) != |rest| - 2 || ModeOf(rest[1..|rest| - 1]) == None then None
    else Some(Parsed(Wrq(b[2..2 + n]), ModeOf(rest[1..|rest| - 1])))
  }

  /** RFC 1350, section 5: a request is opcode, name, zero, mode, zero; DATA is opcode, number, bytes. */
  function Parse(b: seq<byte>): Option<Parsed> {
    if |b| < 4 || b[0] != 0 then None
    else if b[1] == 2 then ParseRequest(b)
    else if b[1] == 3 then Some(Parsed(Data(Field(b, 2), b[4..]), None))
    else None
  }

  /** A TFTP packet, the mode if it is a request, and where its answer has to go. */
  datatype Received = Received(sender: seq<byte>, port: word, mode: Option<Mode>, packet: Packet)

  /** What the server gets from one frame. */
  function Deliver(frame: seq<byte>): Option<Received> {
    var packets := Receive(frame);
    if |packets| != 1 || packets[0].None? then None
    else
      match Accept(packets[0].value)
      case None => None
      case Some(a) =>
        match Parse(a.payload)
        case None => None
        case Some(p) => Some(Received(a.sender, a.port, p.mode, p.packet))
  }

  predicate Sendable(p: Packet) {
    match p
    case Wrq(name) => 0 !in name && |name| <= MAX_PATH_LEN - 1
    case Data(_, bytes) => |bytes| <= TFTP_MAX_DATA_SIZE
  }

  // ---------------------------------------------------------------------------------------
  // Every packet gets there
  // ---------------------------------------------------------------------------------------

  lemma {:induction false} WordsAre(s: seq<byte>)
    requires |s| % 2 == 0
    ensures Words(s) == WordSum(BigEndian, s)
  {
    if s != [] {
      WordsAre(s[2..]);
    }
  }

  lemma Checks(s: seq<byte>)
    requires |s| % 2 == 0 && |s| <= 2 * 65537 && Sum(BigEndian, s) == 0
    ensures Intact(s)
  {
    hide Sum, WordSum, Words;
    WordsAre(s);
    SumFolds(BigEndian, s);
    FoldedOnes(Words(s));
  }

  lemma FoldedOnes(n: nat)
    requires IsFolded(n, 0xFFFF)
    ensures n > 0 && n % 65535 == 0
  {
    var k :| n == 0xFFFF + Times(k);
    assert n == 65535 * (1 + k);
  }

  lemma FieldBytes(n: nat)
    requires n < 0x10000
    ensures NetField(BigEndian, n) == [n / 256, n % 256]
  {
    NetFieldOnWire(BigEndian, n);
  }

  /** The bytes of both headers. */
  lemma HeaderBytes(n: nat)
    requires HDR_LEN + n < 0x10000
    ensures var ip := IpHeader(BigEndian, UDP_HDR_LEN + n);
            && ip[..10] == [0x45, 0, (28 + n) / 256, (28 + n) % 256, 0, 0, 0, 0, 255, 17]
            && ip[12..] == [127, 0, 0, 1, 127, 0, 0, 99]
    ensures UdpHeader(BigEndian, n) == [0x12, 0x67, 0, 69, (8 + n) / 256, (8 + n) % 256, 0, 0]
  {
    hide Sum, Store16, NetField;
    FieldBytes(HDR_LEN + n);
    FieldBytes(UDP_HDR_LEN + n);
    FieldBytes(4711);
    FieldBytes(69);
  }

  /** Every datagram, byte by byte; its header is intact. */
  lemma DatagramBytes(payload: seq<byte>)
    requires HDR_LEN + |payload| < 0x10000
    ensures var x, n := Datagram(BigEndian, payload), |payload|;
            && x[..10] == [0x45, 0, (28 + n) / 256, (28 + n) % 256, 0, 0, 0, 0, 255, 17]
            && x[12..20] == [127, 0, 0, 1, 127, 0, 0, 99]
            && x[20..28] == [0x12, 0x67, 0, 69, (8 + n) / 256, (8 + n) % 256, 0, 0]
            && x[28..] == payload && Intact(x[..20])
  {
    hide IpHeader, UdpHeader, Sum, Intact;
    HeaderBytes(|payload|);
    HeaderVerifies(BigEndian, UDP_HDR_LEN + |payload|);
    var x, ip := Datagram(BigEndian, payload), IpHeader(BigEndian, UDP_HDR_LEN + |payload|);
    assert x[..20] == ip && x[..10] == ip[..10] && x[12..20] == ip[12..];
    Checks(ip);
  }

  /** A payload behind headers of these bytes is taken, and its answer goes to port 4711 of 127.0.0.1. */
  lemma AcceptBytes(x: seq<byte>)
    requires 28 <= |x| < 0x10000 && Intact(x[..20])
    requires x[..10] == [0x45, 0, |x| / 256, |x| % 256, 0, 0, 0, 0, 255, 17]
    requires x[12..20] == [127, 0, 0, 1, 127, 0, 0, 99]
    requires x[20..28] == [0x12, 0x67, 0, 69, (|x| - 20) / 256, (|x| - 20) % 256, 0, 0]
    ensures Accept(x) == Some(Arrival([127, 0, 0, 1], 4711, x[28..]))
  {
    hide Intact;
    var front, ports := x[..10], x[20..28];
    assert x[0] == front[0] && x[2] == front[2] && x[3] == front[3] && x[6] == front[6] && x[7] == front[7];
    assert x[8] == front[8] && x[9] == front[9];
    assert x[20] == ports[0] && x[21] == ports[1] && x[22] == ports[2] && x[23] == ports[3];
    assert x[24] == ports[4] && x[25] == ports[5] && x[26] == ports[6] && x[27] == ports[7];
    assert Field(x, 2) == |x| && Field(x, 6) == 0 && Field(x, 20) == 4711 && Field(x, 22) == 69;
    assert Field(x, 24) == |x| - 20 && Field(x, 26) == 0;
    var hosts := x[12..20];
    assert x[12..16] == hosts[..4] == [127, 0, 0, 1] && x[16..20] == hosts[4..] == [127, 0, 0, 99];
  }

  lemma AcceptDatagram(payload: seq<byte>)
    requires HDR_LEN + |payload| < 0x10000
    ensures Accept(Datagram(BigEndian, payload)) == Some(Arrival([127, 0, 0, 1], 4711, payload))
  {
    hide Datagram, Accept;
    DatagramBytes(payload);
    AcceptBytes(Datagram(BigEndian, payload));
  }

  lemma {:induction false} StrLenOfName(name: seq<byte>, rest: seq<byte>)
    requires 0 !in name
    ensures StrLen(name + [0] + rest) == |name|
  {
    if name != [] {
      assert (name + [0] + rest)[1..] == name[1..] + [0] + rest;
      StrLenOfName(name[1..], rest);
    }
  }

  /** The mode of a packet as the server reads it. */
  function ModeFor(p: Packet): Option<Mode> {
    if p.Wrq? then Some(Netascii) else None
  }

  lemma NetasciiIs()
    ensures ModeOf(NETASCII) == Some(Netascii)
  {
  }

  lemma ParseWrq(name: seq<byte>)
    requires 0 !in name
    ensures Parse(TftpBytes(Wrq(name))) == Some(Parsed(Wrq(name), Some(Netascii)))
  {
    hide ModeOf;
    var b := TftpBytes(Wrq(name));
    assert b[..2] == [0, 2];
    assert b[0] == b[..2][0] && b[1] == b[..2][1];
    assert b[2..] == name + [0] + (NETASCII + [0]);
    StrLenOfName(name, NETASCII + [0]);
    assert b[2..2 + |name|] == name;
    var rest := b[2 + |name|..];
    assert rest[1..] == NETASCII + [0] + [] && rest[1..|rest| - 1] == NETASCII;
    StrLenOfName(NETASCII, []);
    NetasciiIs();
  }

  lemma ParseData(blknum: word, bytes: seq<byte>)
    ensures Parse(TftpBytes(Data(blknum, bytes))) == Some(Parsed(Data(blknum, bytes), None))
  {
    var b := TftpBytes(Data(blknum, bytes));
    assert b[..4] == [0, 3, blknum / 256, blknum % 256] && b[4..] == bytes;
    assert b[0] == b[..4][0] && b[1] == b[..4][1] && b[2] == b[..4][2] && b[3] == b[..4][3];
  }

  lemma ParseBytes(p: Packet)
    requires Sendable(p)
    ensures Parse(TftpBytes(p)) == Some(Parsed(p, ModeFor(p)))
  {
    hide Parse, TftpBytes;
    match p
    case Wrq(name) => ParseWrq(name);
    case Data(blknum, bytes) => ParseData(blknum, bytes);
  }

  /** Whatever the handler frames, the server reads back: name, mode, block number and bytes; and it knows
      where to answer to. */
  lemma Delivered(p: Packet)
    requires Sendable(p)
    ensures Deliver(FrameOf(TftpBytes(p))) == Some(Received([127, 0, 0, 1], 4711, ModeFor(p), p))
  {
    hide Accept, Parse, Datagram, Encode;
    var x := Datagram(BigEndian, TftpBytes(p));
    StreamRoundTrip([x]);
    assert Stream([x]) == Frame(x) + Stream([]);
    assert Stream([x]) == Frame(x);
    AcceptDatagram(TftpBytes(p));
    ParseBytes(p);
  }

  // ---------------------------------------------------------------------------------------
  // The handler's end of the line
  // ---------------------------------------------------------------------------------------

  /** ACK and ERROR packets of the server (RFC 1350, section 5). */
  function AckBytes(blknum: word): seq<byte> {
    [0, 4, blknum / 256, blknum % 256]
  }

  function ErrorBytes(code: word): seq<byte> {
    [0, 5, code / 256, code % 256, 0]
  }

  datatype Extracted = Payload(bytes: seq<byte>) | Rejected(errno: nat)

  /** A read of `actual` bytes can be taken apart: the memory behind them is readable as far as the
      decoder may go, and the headers are there to be stripped. */
  predicate Readable(mem: seq<byte>, actual: nat) {
    HDR_LEN <= actual <= MAX_BUFFER_SIZE && 2 * actual <= |mem|
  }

  /** The TFTP packet netio.c takes out of a read of `actual` bytes at mem. */
  function Extract(mem: seq<byte>, actual: nat): (x: Extracted)
    requires Readable(mem, actual)
    ensures x.Payload? ==> |x.bytes| == actual - HDR_LEN
  {
    var d := Decode(mem, actual);
    if d.ok then Payload(d.out[HDR_LEN..]) else Rejected(ERROR_BAD_NUMBER)
  }

  function GetOpcode(b: seq<byte>): word
    requires |b| >= 4
  {
    Word16(b[0], b[1])
  }

  function GetBlknum(b: seq<byte>): word
    requires |b| >= 4
  {
    Word16(b[2], b[3])
  }

  /** A reply as it lies in memory: the server's own headers, one frame, and foreign bytes behind it. */
  predicate IsImage(mem: seq<byte>, actual: nat, reply: seq<byte>, headers: seq<byte>, tail: seq<byte>) {
    && |headers| == HDR_LEN
    && mem == Frame(headers + reply) + tail
    && actual == |Frame(headers + reply)|
    && Readable(mem, actual)
  }

  /** The over-read of the decoder is harmless: if extraction succeeds, the payload starts with exactly
      the reply sent; it fails only for a broken escape in the foreign bytes, of which as many are
      looked at as the frame has escapes. */
  lemma {:induction false} ReplyExtracted(
    mem: seq<byte>, actual: nat, reply: seq<byte>, headers: seq<byte>, tail: seq<byte>)
    requires IsImage(mem, actual, reply, headers, tail)
    ensures 2 * Specials(headers + reply) <= |tail|
    ensures Extract(mem, actual).Payload? <==> Decode(tail, Specials(headers + reply)).ok
    ensures Extract(mem, actual).Payload? ==>
              Extract(mem, actual).bytes == reply + [END] + Decode(tail, Specials(headers + reply)).out
    ensures !Extract(mem, actual).Payload? ==> Extract(mem, actual) == Rejected(115)
  {
    var x := headers + reply;
    DecodeFrame(x, tail);
    StripHeaders(headers, reply, [END] + Decode(tail, Specials(x)).out);
  }

  lemma StripHeaders(headers: seq<byte>, reply: seq<byte>, rest: seq<byte>)
    requires |headers| == HDR_LEN
    ensures (headers + reply + rest)[HDR_LEN..] == reply + rest
  {
  }

  /** A frame without escapes is always extracted, and nothing but its END follows the reply. */
  lemma PlainReplyExtracted(mem: seq<byte>, actual: nat, reply: seq<byte>, headers: seq<byte>, tail: seq<byte>)
    requires IsImage(mem, actual, reply, headers, tail) && Specials(headers + reply) == 0
    ensures Extract(mem, actual) == Payload(reply + [END])
  {
    ReplyExtracted(mem, actual, reply, headers, tail);
    assert reply + [END] + [] == reply + [END];
  }

  lemma AckFields(blknum: word, rest: seq<byte>)
    ensures GetOpcode(AckBytes(blknum) + rest) == OP_ACK && GetBlknum(AckBytes(blknum) + rest) == blknum
  {
    var b := AckBytes(blknum) + rest;
    assert b[..2] == Wire16(OP_ACK) && b[2..4] == Wire16(blknum);
    assert b[0] == b[..2][0] && b[1] == b[..2][1] && b[2] == b[2..4][0] && b[3] == b[2..4][1];
  }

  lemma ErrorFields(code: word, rest: seq<byte>)
    ensures GetOpcode(ErrorBytes(code) + rest) == OP_ERROR
  {
    var b := ErrorBytes(code) + rest;
    assert b[..2] == Wire16(OP_ERROR);
    assert b[0] == b[..2][0] && b[1] == b[..2][1];
  }
}

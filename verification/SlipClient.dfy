/** slip.c: the same frame, built by stuffing the headers and the data one after the other into one
    buffer. It runs on machines of either byte order. */
module SlipClient {
  import opened Bytes
  import opened Slip
  import opened Checksum
  import opened Packets
  import opened NetIo

  const MAX_PKT_SIZE := 65535

  /** The three segments stuffed separately, and END. */
  function SegmentFrame(order: Order, data: seq<byte>): seq<byte> {
    Encode(IpHeader(order, UDP_HDR_LEN + |data|)) + Encode(UdpHeader(order, |data|)) + Encode(data) + [END]
  }

  /** Separate stuffing makes no difference. */
  lemma SegmentsJoin(ip: seq<byte>, udp: seq<byte>, data: seq<byte>)
    ensures Encode(ip) + Encode(udp) + Encode(data) + [END] == Frame(ip + (udp + data))
  {
    hide Encode;
    EncodeConcat(udp, data);
    EncodeConcat(ip, udp + data);
    assert Encode(ip) + Encode(udp) + Encode(data) == Encode(ip) + (Encode(udp) + Encode(data));
  }

  /** Whenever netio.c can frame a payload, slip.c sends the same bytes for it, on either machine. */
  lemma BuildersAgree(order: Order, data: seq<byte>)
    ensures SegmentFrame(order, data) == FrameOf(data)
    ensures Fits(data) ==> |SegmentFrame(order, data)| <= MAX_BUFFER_SIZE < MAX_PKT_SIZE
  {
    hide Fits;
    SegmentsJoin(IpHeader(order, UDP_HDR_LEN + |data|), UdpHeader(order, |data|), data);
    if order == LittleEndian {
      DatagramOrderIndependent(data);
    }
    FitsFrame(data);
  }

  /** copy_and_encode_data, for a part of the buffer of buflen bytes: -1 if not every byte was taken. */
  method CopyAndEncodeData(buffer: array<byte>, at: nat, data: array<byte>, buflen: int, datalen: nat)
    returns (nbytes: int)
    requires datalen <= data.Length && at <= buffer.Length == at + buflen && buffer != data
    modifies buffer
    ensures nbytes == -1 ||
            (0 <= nbytes <= buflen && buffer[..at + nbytes] == old(buffer[..at]) + Encode(data[..datalen]))
    ensures nbytes == -1 <==> datalen > 0 && |Encode(data[..datalen - 1])| >= buflen - 1
  {
    ghost var s := data[..datalen];
    TakenExact(s, buflen - 1);
    var n, total := EncodeInto(buffer, at, buflen - 1, data, datalen);
    assert s[..|s|] == s && (datalen > 0 ==> s[..|s| - 1] == data[..datalen - 1]);
    if n < datalen {
      return -1;
    }
    return total;
  }

  lemma LastByte(s: seq<byte>)
    ensures |s| <= |Encode(s)| <= 2 * |s|
    ensures s != [] ==> |Encode(s[..|s| - 1])| < |Encode(s)|
  {
    EncodeLength(s);
    if s != [] {
      EncodeGrows(s, |s| - 1, |s|);
      assert s[..|s|] == s;
    }
  }

  /** A comparison of an int with a sizeof value is done unsigned: -1 is not less than anything. */
  predicate LessThanSize(nbytes: int, size: nat) {
    0 <= nbytes < size
  }

  /** The two headers, stuffed one after the other to the start of the buffer. */
  method StuffHeaders(order: Order, buffer: array<byte>, datalen: nat) returns (total: int)
    requires buffer.Length == MAX_PKT_SIZE
    modifies buffer
    ensures 0 <= total <= 2 * HDR_LEN
    ensures buffer[..total] == Encode(IpHeader(order, UDP_HDR_LEN + datalen)) + Encode(UdpHeader(order, datalen))
  {
    hide IpHeader, UdpHeader, Encode;
    var iphdr := BuildIpHeader(order, UDP_HDR_LEN + datalen);
    var udphdr := BuildUdpHeader(order, datalen);
    assert iphdr[..IP_HDR_LEN] == iphdr[..] && udphdr[..UDP_HDR_LEN] == udphdr[..];
    LastByte(iphdr[..]);
    LastByte(udphdr[..]);
    total := 0;
    var nbytes := CopyAndEncodeData(buffer, total, iphdr, MAX_PKT_SIZE - total, IP_HDR_LEN);
    if LessThanSize(nbytes, IP_HDR_LEN) {
      return -1;
    }
    total := total + nbytes;
    nbytes := CopyAndEncodeData(buffer, total, udphdr, MAX_PKT_SIZE - total, UDP_HDR_LEN);
    if LessThanSize(nbytes, UDP_HDR_LEN) {
      return -1;
    }
    total := total + nbytes;
  }

  /** send_packet up to the socket call. The packet is sent exactly if its frame fits the buffer. */
  method SendPacket(order: Order, data: array<byte>, datalen: nat) returns (sent: Option<seq<byte>>)
    requires datalen <= data.Length
    ensures var frame := SegmentFrame(order, data[..datalen]);
            sent == if |frame| <= MAX_PKT_SIZE then Some(frame) else None
  {
    hide IpHeader, UdpHeader, Encode;
    var buffer := new byte[MAX_PKT_SIZE];
    var total := StuffHeaders(order, buffer, datalen);
    LastByte(data[..datalen]);
    assert datalen > 0 ==> data[..datalen][..datalen - 1] == data[..datalen - 1];
    var nbytes := CopyAndEncodeData(buffer, total, data, MAX_PKT_SIZE - total, datalen);
    if nbytes < datalen {
      return None;
    }
    total := total + nbytes;
    if total < MAX_PKT_SIZE {
      ghost var body := buffer[..total];
      buffer[total] := END;
      total := total + 1;
      assert buffer[..total] == body + [END];
    } else {
      return None;
    }
    return Some(buffer[..total]);
  }
}

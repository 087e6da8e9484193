/** netio.c: packets are built and taken apart in buffers of 1024 bytes, one per protocol layer. */
module NetIo {
  import opened Bytes
  import opened Slip
  import opened Checksum
  import opened Messages
  import opened Packets

  const ERROR_IO_NOT_FINISHED := 1003

  // ---------------------------------------------------------------------------------------
  // What the methods compute
  // ---------------------------------------------------------------------------------------

  /** The error extract_tftp_packet ends with, or 0. */
  function ExtractFailure(x: Extracted, grants: seq<bool>): nat {
    if !Granted(grants, 0) then ERROR_NO_FREE_STORE
    else if x.Rejected? then x.errno
    else if !Granted(grants, 1) || !Granted(grants, 2) then ERROR_NO_FREE_STORE
    else 0
  }

  lemma ExtractIs(mem: seq<byte>, actual: nat)
    requires Readable(mem, actual)
    ensures Extract(mem, actual) == if DecodeFailure(mem, actual) != 0 then Rejected(DecodeFailure(mem, actual))
                                    else Payload(Decode(mem, actual).out[HDR_LEN..])
    ensures actual <= MAX_BUFFER_SIZE && (DecodeFailure(mem, actual) == 0 <==> Decode(mem, actual).ok)
  {
  }

  /** The error of slip_decode_buffer, or 0. */
  function DecodeFailure(mem: seq<byte>, size: nat): nat
    requires 2 * Min(size, MAX_BUFFER_SIZE) <= |mem|
  {
    if !Decode(mem, Min(size, MAX_BUFFER_SIZE)).ok then ERROR_BAD_NUMBER
    else if size > MAX_BUFFER_SIZE then ERROR_BUFFER_OVERFLOW
    else 0
  }

  predicate Granted(grants: seq<bool>, k: nat) {
    k < |grants| && grants[k]
  }

  function Later(grants: seq<bool>): seq<bool> {
    if grants == [] then [] else grants[1..]
  }

  /** The error send_tftp_packet ends with for payload s, given the outcomes of its allocations, or 0. */
  function SendFailure(s: seq<byte>, grants: seq<bool>): nat {
    if UDP_HDR_LEN + |s| > MAX_BUFFER_SIZE then ERROR_BUFFER_OVERFLOW
    else if !Granted(grants, 0) then ERROR_NO_FREE_STORE
    else if HDR_LEN + |s| > MAX_BUFFER_SIZE then ERROR_BUFFER_OVERFLOW
    else if !Granted(grants, 1) || !Granted(grants, 2) then ERROR_NO_FREE_STORE
    else if !Fits(s) then ERROR_BUFFER_OVERFLOW
    else 0
  }

  /** In uploads only the frame can overflow: the checks of the UDP and IP layers never fail. */
  lemma UploadFailure(p: Packet, grants: seq<bool>)
    requires Sendable(p)
    ensures SendFailure(TftpBytes(p), grants) ==
              if !(Granted(grants, 0) && Granted(grants, 1) && Granted(grants, 2)) then 103
              else if !Fits(TftpBytes(p)) then 303
              else 0
  {
    hide Fits;
  }

  // ---------------------------------------------------------------------------------------
  // Buffers
  // ---------------------------------------------------------------------------------------

  class Buffer {
    const addr: array<byte>
    var size: nat

    constructor (length: nat)
      ensures size == 0 && addr.Length == length && fresh(addr)
    {
      addr, size := new byte[length], 0;
    }

    ghost predicate Valid()
      reads this
    {
      size <= addr.Length == MAX_BUFFER_SIZE
    }

    ghost function Contents(): seq<byte>
      reads this, addr
      requires Valid()
    {
      addr[..size]
    }
  }

  /** memcpy: what lies before the destination stays. */
  method CopyIn(dst: array<byte>, at: nat, bytes: seq<byte>)
    requires at + |bytes| <= dst.Length
    modifies dst
    ensures dst[..at + |bytes|] == old(dst[..at]) + bytes
    ensures dst[at + |bytes|..] == old(dst[at + |bytes|..])
  {
    forall i | at <= i < at + |bytes| {
      dst[i] := bytes[i - at];
    }
  }

  /** The loop of slip_decode_buffer over the memory at io_Data. */
  method SlipDecodeLoop(dst: array<byte>, src: array<byte>, limit: nat) returns (n: nat)
    requires limit <= MAX_BUFFER_SIZE == dst.Length && 2 * limit <= src.Length && dst != src
    modifies dst
    ensures n <= limit && dst[..n] == Decode(src[..], limit).out
    ensures n == limit <==> Decode(src[..], limit).ok
  {
    n := 0;
    var at := 0;
    ghost var mem := src[..];
    while n < limit
      invariant n <= limit && at <= src.Length && 2 * (limit - n) <= src.Length - at
      invariant src[..] == mem && Decode(mem, limit) == Onto(dst[..n], Decode(mem[at..], limit - n))
    {
      ghost var before, rest := dst[..n], mem[at..];
      var b := src[at];
      if b == ESC {
        assert rest[2..] == mem[at + 2..];
        at := at + 1;
        if src[at] == ESCAPED_END {
          b := END;
        } else if src[at] == ESCAPED_ESC {
          b := ESC;
        } else {
          return;
        }
      } else {
        assert rest[1..] == mem[at + 1..];
      }
      OntoOnto(before, [b], Decode(mem[at + 1..], limit - n - 1));
      dst[n] := b;
      assert dst[..n + 1] == before + [b];
      n, at := n + 1, at + 1;
    }
  }

  /** The headers as the code fills them in; ip_sum is computed over the header with a zero in its place. */
  method BuildIpHeader(order: Order, n: nat) returns (hdr: array<byte>)
    ensures fresh(hdr) && hdr[..] == IpHeader(order, n)
  {
    hide IpFront, Sum;
    hdr := new byte[IP_HDR_LEN];
    CopyIn(hdr, 0, IpFront(order, n));
    CopyIn(hdr, 10, [0, 0]);
    CopyIn(hdr, 12, IP_BACK);
    ghost var zeroed := IpFront(order, n) + [0, 0] + IP_BACK;
    assert hdr[..20] == zeroed;
    var sum := CalcChecksum(order, hdr, IP_HDR_LEN);
    assert hdr[..10] == zeroed[..10] == IpFront(order, n);
    assert hdr[12..] == zeroed[12..] == IP_BACK;
    CopyIn(hdr, 10, Store16(order, sum));
    assert hdr[..] == hdr[..12] + hdr[12..];
  }

  method BuildUdpHeader(order: Order, n: nat) returns (hdr: array<byte>)
    ensures fresh(hdr) && hdr[..] == UdpHeader(order, n)
  {
    hdr := new byte[UDP_HDR_LEN];
    CopyIn(hdr, 0, NetField(order, 4711));
    CopyIn(hdr, 2, NetField(order, 69));
    CopyIn(hdr, 4, NetField(order, UDP_HDR_LEN + n));
    CopyIn(hdr, 6, [0, 0]);
    assert hdr[..] == hdr[..8];
  }

  // ---------------------------------------------------------------------------------------
  // The module's state and its operations
  // ---------------------------------------------------------------------------------------

  /** Where a completed read has put its data: actual bytes at addr, with whatever memory behind them. */
  datatype Incoming = Nothing | Incoming(addr: array<byte>, actual: nat)

  class MsgPort<T> {
    var queue: seq<Msg<T>>

    constructor ()
      ensures queue == []
    {
      queue := [];
    }
  }

  /** The allocations to come succeed or fail as grants says; incoming is what the last completed
      operation has left in the serial request. */
  class NetIo<T> {
    const port: MsgPort<T>
    var errno: nat
    var grants: seq<bool>
    var serial: Request<seq<byte>, Incoming>
    var incoming: Incoming
    var timer: Countdown

    constructor (p: MsgPort<T>, allocations: seq<bool>)
      ensures port == p && grants == allocations && serial == Idle && timer == Stopped && errno == 0
      ensures incoming == Nothing
    {
      port, grants, serial, incoming, timer, errno := p, allocations, Idle, Nothing, Stopped, 0;
    }

    /** AllocVec. */
    method Alloc() returns (ok: bool)
      modifies this`grants
      ensures grants == Later(old(grants)) && ok == Granted(old(grants), 0)
    {
      ok := Granted(grants, 0);
      grants := Later(grants);
    }

    method CreateBuffer(length: nat) returns (b: Buffer?)
      modifies this`grants
      ensures grants == Later(old(grants)) && (b != null <==> Granted(old(grants), 0))
      ensures b != null ==> fresh(b) && fresh(b.addr) && b.size == 0 && b.addr.Length == length
    {
      b := null;
      var ok := Alloc();
      if ok {
        b := new Buffer(length);
      }
    }

    method CreateUdpPacket(data: Buffer) returns (pkt: Buffer?)
      requires data.Valid()
      modifies this`grants, this`errno
      ensures grants == if UDP_HDR_LEN + data.size > MAX_BUFFER_SIZE then old(grants) else Later(old(grants))
      ensures errno == if UDP_HDR_LEN + data.size > MAX_BUFFER_SIZE then ERROR_BUFFER_OVERFLOW
                       else if !Granted(old(grants), 0) then ERROR_NO_FREE_STORE else 0
      ensures pkt != null <==> errno == 0
      ensures pkt != null ==>
                fresh(pkt) && fresh(pkt.addr) && pkt.Valid() && pkt.Contents() == UdpPacket(BigEndian, data.Contents())
    {
      hide UdpHeader;
      if UDP_HDR_LEN + data.size > MAX_BUFFER_SIZE {
        errno := ERROR_BUFFER_OVERFLOW;
        return null;
      }
      pkt := CreateBuffer(MAX_BUFFER_SIZE);
      if pkt == null {
        errno := ERROR_NO_FREE_STORE;
        return;
      }
      var hdr := BuildUdpHeader(BigEndian, data.size);
      CopyIn(pkt.addr, 0, hdr[..]);
      CopyIn(pkt.addr, UDP_HDR_LEN, data.addr[..data.size]);
      pkt.size := UDP_HDR_LEN + data.size;
      errno := 0;
    }

    method CreateIpPacket(data: Buffer) returns (pkt: Buffer?)
      requires data.Valid()
      modifies this`grants, this`errno
      ensures grants == if IP_HDR_LEN + data.size > MAX_BUFFER_SIZE then old(grants) else Later(old(grants))
      ensures errno == if IP_HDR_LEN + data.size > MAX_BUFFER_SIZE then ERROR_BUFFER_OVERFLOW
                       else if !Granted(old(grants), 0) then ERROR_NO_FREE_STORE else 0
      ensures pkt != null <==> errno == 0
      ensures pkt != null ==>
                fresh(pkt) && fresh(pkt.addr) && pkt.Valid() && pkt.Contents() == IpPacket(BigEndian, data.Contents())
    {
      hide IpHeader;
      if IP_HDR_LEN + data.size > MAX_BUFFER_SIZE {
        errno := ERROR_BUFFER_OVERFLOW;
        return null;
      }
      pkt := CreateBuffer(MAX_BUFFER_SIZE);
      if pkt == null {
        errno := ERROR_NO_FREE_STORE;
        return;
      }
      var hdr := BuildIpHeader(BigEndian, data.size);
      CopyIn(pkt.addr, 0, hdr[..]);
      CopyIn(pkt.addr, IP_HDR_LEN, data.addr[..data.size]);
      pkt.size := IP_HDR_LEN + data.size;
      errno := 0;
    }

    /** It fails exactly if the last byte is reached too late; what it has encoded by then stays in dbuf. */
    method SlipEncodeBuffer(dbuf: Buffer, sbuf: Buffer) returns (ok: bool)
      requires dbuf.Valid() && sbuf.Valid() && dbuf != sbuf && dbuf.addr != sbuf.addr
      modifies this`errno, dbuf`size, dbuf.addr
      ensures dbuf.Valid()
      ensures var s := sbuf.Contents();
              && dbuf.Contents() == Encode(s[..Taken(s, 0, MAX_BUFFER_SIZE - 1)])
              && (ok <==> s == [] || |Encode(s[..|s| - 1])| < MAX_BUFFER_SIZE - 1)
              && (ok ==> dbuf.Contents() == Encode(s))
      ensures errno == if ok then 0 else ERROR_BUFFER_OVERFLOW
    {
      ghost var s := sbuf.Contents();
      var n, total := EncodeInto(dbuf.addr, 0, MAX_BUFFER_SIZE - 1, sbuf.addr, sbuf.size);
      TakenExact(s, MAX_BUFFER_SIZE - 1);
      assert s[..|s|] == s;
      dbuf.size := total;
      if n < sbuf.size {
        errno := ERROR_BUFFER_OVERFLOW;
        return false;
      }
      errno := 0;
      return true;
    }

    /** A frame is built exactly if it fits its buffer with its END; no write is ever out of bounds. */
    method CreateSlipFrame(data: Buffer) returns (frame: Buffer?)
      requires data.Valid()
      modifies this`grants, this`errno
      ensures grants == Later(old(grants))
      ensures errno == if !Granted(old(grants), 0) then ERROR_NO_FREE_STORE
                       else if |data.Contents()| + Specials(data.Contents()) < MAX_BUFFER_SIZE then 0
                       else ERROR_BUFFER_OVERFLOW
      ensures frame != null <==> errno == 0
      ensures frame != null ==>
                fresh(frame) && fresh(frame.addr) && frame.Valid() && frame.Contents() == Frame(data.Contents())
    {
      ghost var s := data.Contents();
      frame := CreateBuffer(MAX_BUFFER_SIZE);
      if frame == null {
        errno := ERROR_NO_FREE_STORE;
        return;
      }
      EncodeLength(s);
      TakenExact(s, MAX_BUFFER_SIZE - 1);
      var ok := SlipEncodeBuffer(frame, data);
      assert data.Contents() == s;
      if !ok {
        return null;
      }
      if frame.size < MAX_BUFFER_SIZE {
        ghost var body := frame.Contents();
        frame.addr[frame.size] := END;
        assert frame.addr[..frame.size] == body;
        frame.size := frame.size + 1;
      } else {
        errno := ERROR_BUFFER_OVERFLOW;
        return null;
      }
      errno := 0;
    }

    /** SendIO for the serial and the timer request; or, if it is not to be asynchronous, DoIO for the
        serial request alone, which ends with the given error or 0. */
    method SendSlipFrame(frame: Buffer, async: bool, error: nat) returns (ok: bool)
      requires frame.Valid()
      modifies this`serial, this`timer, this`errno
      ensures errno == (if async then 0 else error) && (ok <==> errno == 0)
      ensures async ==> serial == Pending(OpWrite(frame.Contents())) && timer == Running
      ensures !async ==> serial == Idle && timer == old(timer)
    {
      if async {
        serial := Pending(OpWrite(frame.addr[..frame.size]));
        timer := Running;
        errno := 0;
        return true;
      }
      serial := Idle;
      errno := error;
      return error == 0;
    }

    /** The three layers: the frame on the line is that of the payload, or nothing is sent. */
    method SendTftpPacket(pkt: Buffer) returns (ok: bool)
      requires pkt.Valid()
      modifies this`grants, this`errno, this`serial, this`timer
      ensures errno == SendFailure(pkt.Contents(), old(grants)) && (ok <==> errno == 0)
      ensures ok ==> serial == Pending(OpWrite(FrameOf(pkt.Contents()))) && timer == Running
      ensures !ok ==> serial == old(serial) && timer == old(timer)
    {
      var udp := CreateUdpPacket(pkt);
      if udp == null {
        return false;
      }
      var ip := CreateIpPacket(udp);
      if ip == null {
        return false;
      }
      var frame := CreateSlipFrame(ip);
      if frame == null {
        return false;
      }
      ok := SendSlipFrame(frame, true, 0);
    }

    /** The check of the whole length comes first: a longer name would not fit its buffer. */
    method SendTftpReqPacket(opcode: word, fname: CString) returns (ok: bool)
      modifies this`grants, this`errno, this`serial, this`timer
      ensures errno == if |fname| + 12 > MAX_BUFFER_SIZE then ERROR_BUFFER_OVERFLOW
                       else if !Granted(old(grants), 0) then ERROR_NO_FREE_STORE
                       else SendFailure(RequestBytes(opcode, fname), Later(old(grants)))
      ensures ok <==> errno == 0
      ensures ok ==> serial == Pending(OpWrite(FrameOf(RequestBytes(opcode, fname)))) && timer == Running
      ensures !ok ==> serial == old(serial) && timer == old(timer)
    {
      hide FrameOf, SendFailure, Later;
      if |fname| + 12 > MAX_BUFFER_SIZE {
        errno := ERROR_BUFFER_OVERFLOW;
        return false;
      }
      var pkt := CreateBuffer(MAX_BUFFER_SIZE);
      if pkt == null {
        errno := ERROR_NO_FREE_STORE;
        return false;
      }
      var pos := 0;
      CopyIn(pkt.addr, pos, Store16(BigEndian, Htons(BigEndian, opcode)));
      pos := pos + 2;
      CopyIn(pkt.addr, pos, fname + [0]);
      pos := pos + |fname| + 1;
      CopyIn(pkt.addr, pos, NETASCII + [0]);
      pkt.size := |fname| + 12;
      assert pkt.Contents() == RequestBytes(opcode, fname);
      ok := SendTftpPacket(pkt);
    }

    /** At most 512 bytes are taken from where the cursor stands. */
    method SendTftpDataPacket(blknum: word, bytes: array<byte>, cur: nat, count: int) returns (ok: bool)
      requires 0 <= count && cur + Min(count, TFTP_MAX_DATA_SIZE) <= bytes.Length
      modifies this`grants, this`errno, this`serial, this`timer
      ensures var payload := DataBytes(blknum, bytes[cur..cur + Min(count, TFTP_MAX_DATA_SIZE)]);
              && (errno == if !Granted(old(grants), 0) then ERROR_NO_FREE_STORE
                           else SendFailure(payload, Later(old(grants))))
              && (ok ==> serial == Pending(OpWrite(FrameOf(payload))) && timer == Running)
      ensures ok <==> errno == 0
      ensures !ok ==> serial == old(serial) && timer == old(timer)
    {
      hide FrameOf, SendFailure, Later;
      var pkt := CreateBuffer(MAX_BUFFER_SIZE);
      if pkt == null {
        errno := ERROR_NO_FREE_STORE;
        return false;
      }
      var pos, nbytes := 0, count;
      CopyIn(pkt.addr, pos, Store16(BigEndian, Htons(BigEndian, OP_DATA)));
      pos := pos + 2;
      CopyIn(pkt.addr, pos, Store16(BigEndian, Htons(BigEndian, blknum)));
      pos := pos + 2;
      if nbytes > TFTP_MAX_DATA_SIZE {
        nbytes := TFTP_MAX_DATA_SIZE;
      }
      CopyIn(pkt.addr, pos, bytes[cur..cur + nbytes]);
      pkt.size := nbytes + 4;
      assert pkt.Contents() == DataBytes(blknum, bytes[cur..cur + nbytes]);
      ok := SendTftpPacket(pkt);
    }

    method RecvTftpPacket() returns (ok: bool)
      modifies this`grants, this`errno, this`serial, this`timer
      ensures ok <==> Granted(old(grants), 0)
      ensures errno == if ok then 0 else ERROR_NO_FREE_STORE
      ensures ok ==> serial == Pending(OpRead) && timer == Running
      ensures !ok ==> serial == old(serial) && timer == old(timer)
    {
      var buf := CreateBuffer(MAX_BUFFER_SIZE);
      if buf == null {
        errno := ERROR_NO_FREE_STORE;
        return false;
      }
      serial := Pending(OpRead);
      timer := Running;
      errno := 0;
      return true;
    }

    /** size output bytes are decoded, wherever END is, but no more than the buffer holds. */
    method SlipDecodeBuffer(dbuf: Buffer, addr: array<byte>, size: nat) returns (ok: bool)
      requires dbuf.Valid() && dbuf.addr != addr && 2 * Min(size, MAX_BUFFER_SIZE) <= addr.Length
      modifies this`errno, dbuf`size, dbuf.addr
      ensures dbuf.Valid() && dbuf.Contents() == Decode(addr[..], Min(size, MAX_BUFFER_SIZE)).out
      ensures errno == DecodeFailure(addr[..], size) && (ok <==> errno == 0)
    {
      errno := ERROR_BUFFER_OVERFLOW;
      var n := SlipDecodeLoop(dbuf.addr, addr, Min(size, MAX_BUFFER_SIZE));
      dbuf.size := n;
      if n < Min(size, MAX_BUFFER_SIZE) {
        errno := ERROR_BAD_NUMBER;
      }
      if n < size {
        return false;
      }
      errno := 0;
      return true;
    }

    /** get_data_from_ip_packet and get_data_from_udp_packet: the same but for the header they skip. */
    method GetDataFromPacket(pkt: Buffer, header: nat) returns (data: Buffer?)
      requires pkt.Valid() && header <= pkt.size
      modifies this`grants, this`errno
      ensures grants == Later(old(grants)) && errno == (if data != null then 0 else ERROR_NO_FREE_STORE)
      ensures data != null <==> Granted(old(grants), 0)
      ensures data != null ==>
                fresh(data) && fresh(data.addr) && data.Valid() && data.Contents() == pkt.Contents()[header..]
    {
      data := CreateBuffer(MAX_BUFFER_SIZE);
      if data == null {
        errno := ERROR_NO_FREE_STORE;
        return;
      }
      CopyIn(data.addr, 0, pkt.addr[header..pkt.size]);
      data.size := pkt.size - header;
      errno := 0;
    }

    /** The packet is taken out of the data of the completed read; if that fails, pkt is unchanged. */
    method ExtractTftpPacket(pkt: Buffer) returns (ok: bool)
      requires pkt.Valid() && incoming.Incoming? && pkt.addr != incoming.addr
      requires Readable(incoming.addr[..], incoming.actual)
      modifies this`grants, this`errno, pkt`size, pkt.addr
      ensures pkt.Valid() && (ok <==> errno == 0)
      ensures errno == ExtractFailure(Extract(incoming.addr[..], incoming.actual), old(grants))
      ensures ok ==> Extract(incoming.addr[..], incoming.actual) == Payload(pkt.Contents())
      ensures ok ==> pkt.addr[pkt.size..] == old(pkt.addr[..])[pkt.size..]
      ensures !ok ==> pkt.addr[..] == old(pkt.addr[..]) && pkt.size == old(pkt.size)
    {
      hide Extract;
      var data, size := incoming.addr, incoming.actual;
      ExtractIs(data[..], size);
      var frame := CreateBuffer(MAX_BUFFER_SIZE);
      if frame == null {
        errno := ERROR_NO_FREE_STORE;
        return false;
      }
      ok := SlipDecodeBuffer(frame, data, size);
      if !ok {
        return;
      }
      var ip := GetDataFromPacket(frame, IP_HDR_LEN);
      if ip == null {
        return false;
      }
      var udp := GetDataFromPacket(ip, UDP_HDR_LEN);
      if udp == null {
        return false;
      }
      assert udp.Contents() == frame.Contents()[HDR_LEN..];
      CopyIn(pkt.addr, 0, udp.addr[..udp.size]);
      pkt.size := udp.size;
      errno := 0;
    }

    /** netio_get_status: -1 if the serial request is still outstanding; otherwise it is unused again. Its
        reply has been taken off the port by then. */
    method GetStatus() returns (status: int)
      modifies this`serial, this`incoming, this`errno
      ensures status == if old(serial).Replied? then old(serial).status else -1
      ensures status == -1 ==> serial == old(serial) && incoming == old(incoming)
      ensures status != -1 ==> serial == Idle && incoming == old(serial).reply
      ensures errno == if status == -1 then 1003 else old(errno)
    {
      if !serial.Replied? {
        errno := ERROR_IO_NOT_FINISHED;
        return -1;
      }
      status := serial.status;
      serial, incoming := Idle, serial.reply;
    }

    /** netio_stop_timer: no timeout is left at the port. */
    method StopTimer()
      modifies this`timer, port
      ensures timer == Stopped && port.queue == Without(old(port.queue), Kind.Timer)
    {
      port.queue := Without(port.queue, Kind.Timer);
      timer := Stopped;
    }

    /** netio_abort: no reply of the serial request is left at the port. */
    method Abort()
      modifies this`serial, port
      ensures serial == Idle && port.queue == Without(old(port.queue), Kind.Serial)
    {
      port.queue := Without(port.queue, Kind.Serial);
      serial := Idle;
    }
  }

  /** ntohs of a native load. */
  method ReadOpcode(pkt: Buffer) returns (opcode: word)
    requires pkt.Valid()
    ensures opcode == GetOpcode(pkt.addr[..])
  {
    opcode := Htons(BigEndian, Load16(BigEndian, pkt.addr[0], pkt.addr[1]));
  }

  method ReadBlknum(pkt: Buffer) returns (blknum: word)
    requires pkt.Valid()
    ensures blknum == GetBlknum(pkt.addr[..])
  {
    blknum := Htons(BigEndian, Load16(BigEndian, pkt.addr[2], pkt.addr[3]));
  }
}

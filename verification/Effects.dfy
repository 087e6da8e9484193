/** What a pass of the main loop leaves alone, and the two histories it may extend. */
module Effects {
  import opened Bytes
  import opened Messages
  import opened Packets
  import opened Engine
  import opened Files

  /** The file a record stands for, and what of it has been acknowledged, are as before; and the file
      has not become open, ready or finished. */
  predicate SameFile(a: Ftx, b: Ftx) {
    && b.name == a.name && b.writes == a.writes && b.acked == a.acked
    && (b.state == a.state || b.state == WrqSent || b.state == DataSent || b.state == Error)
  }

  /** A part of a pass from h to r that touches no transfer but i, and not the file of i. */
  predicate Kept(h: H, r: H, i: nat) {
    && r.started == h.started && r.ioArg == h.ioArg && |r.transfers| == |h.transfers|
    && (forall j :: 0 <= j < |h.transfers| && j != i ==> r.transfers[j] == h.transfers[j])
    && (i < |h.transfers| ==> SameFile(h.transfers[i], r.transfers[i]))
  }

  lemma KeptSame(h: H, r: H, i: nat)
    requires r.started == h.started && r.ioArg == h.ioArg && r.transfers == h.transfers
    ensures Kept(h, r, i)
  {
  }

  lemma KeptTwice(h: H, a: H, b: H, i: nat)
    requires Kept(h, a, i) && Kept(a, b, i)
    ensures Kept(h, b, i)
  {
  }

  lemma KeptSet(h: H, r: H, i: nat)
    requires i < |h.transfers| && |r.transfers| == |h.transfers| && r.started == h.started && r.ioArg == h.ioArg
    requires r.transfers == h.transfers[i := r.transfers[i]] && SameFile(h.transfers[i], r.transfers[i])
    ensures Kept(h, r, i)
  {
  }

  lemma KeptFail(h: H, i: nat, error: nat)
    requires i < |h.transfers|
    ensures Kept(h, Fail(h, i, error), i)
  {
    hide HasInternal;
    KeptSet(h, Fail(h, i, error), i);
  }

  lemma KeptSend(h: H, i: nat, p: Packet, next: FileState, net: Net)
    requires i < |h.transfers| && (next == WrqSent || next == DataSent)
    ensures Kept(h, Send(h, i, p, next, net), i)
  {
    hide Fail;
    if SendError(net) == 0 {
      KeptSet(h, Send(h, i, p, next, net), i);
    } else {
      KeptFail(h, i, SendError(net));
    }
  }

  lemma KeptChunk(h: H, i: nat, net: Net)
    requires i < |h.transfers| && h.transfers[i].buffers != []
    ensures Kept(h, SendChunk(h, i, net), i)
  {
    hide Send, Kept, Chunk, InBounds;
    var t := h.transfers[i];
    var r := SendChunk(h, i, net);
    if InBounds(t.buffers[0]) {
      var h1 := SetFtx(h, i, t.(blknum := (t.blknum + 1) % TWO32)).(ioType := WriteReturn);
      KeptSet(h, h1, i);
      KeptSend(h1, i, Data((t.blknum + 1) % TWO32 % 0x10000, Chunk(t.buffers[0])), DataSent, net);
      KeptTwice(h, h1, r, i);
    } else {
      KeptSame(h, r, i);
    }
  }

  lemma KeptActive(h: H, m: Msg<nat>, net: Net)
    requires KindOf(m) == Active && m.ftx < |h.transfers|
    requires m.SendNextBuffer? ==> h.transfers[m.ftx].buffers != []
    ensures Kept(h, match m
                    case SendNextBuffer(i) => DoSendNextBuffer(h, i, net)
                    case ContinueBuffer(i) => DoContinueBuffer(h, i, net)
                    case BufferFinished(i) => DoBufferFinished(h, i), m.ftx)
  {
    hide SendChunk, Kept, HasInternal;
    var i, t := m.ftx, h.transfers[m.ftx];
    var h1 := h.(local := Some(i));
    KeptSame(h, h1, i);
    match m
    case SendNextBuffer(_) =>
      var r := DoSendNextBuffer(h, i, net);
      KeptChunk(h1, i, net);
      KeptTwice(h, h1, r, i);
    case ContinueBuffer(_) =>
      var r := DoContinueBuffer(h, i, net);
      if t.buffers != [] {
        var h2 := SetFtx(h1, i, Advanced(t));
        KeptSet(h, h2, i);
        KeptChunk(h2, i, net);
        KeptTwice(h, h2, r, i);
      } else {
        KeptSame(h, r, i);
      }
    case BufferFinished(_) =>
      var r := DoBufferFinished(h, i);
      if t.buffers != [] {
        KeptSet(h, r, i);
      } else {
        KeptSame(h, r, i);
      }
  }

  lemma KeptStatus(h: H, i: nat)
    requires i < |h.transfers|
    ensures Kept(h, TakeStatus(h, i), i)
  {
    hide Fail, Kept;
    var h1, r := h.(serial := Idle), TakeStatus(h, i);
    KeptSame(h, h1, i);
    if h.serial.Replied? && h.serial.status > 0 {
      KeptFail(h1, i, h.serial.status);
      KeptTwice(h, h1, r, i);
    } else {
      KeptSame(h, r, i);
    }
  }

  lemma KeptWriteReturn(h: H, i: nat, mem: bool)
    requires i < |h.transfers|
    ensures Kept(h, DoWriteReturn(h, i, mem), i)
  {
    hide Fail, TakeStatus, Kept, Without;
    var h1, r := StopTimer(h), DoWriteReturn(h, i, mem);
    KeptSame(h, h1, i);
    var h2 := TakeStatus(h1, i);
    KeptStatus(h1, i);
    KeptTwice(h, h1, h2, i);
    KeptLength(h, h2, i);
    var h3 := h2.(ioType := ReadReturn);
    KeptSame(h2, h3, i);
    KeptTwice(h, h2, h3, i);
    if mem {
      KeptSame(h3, r, i);
    } else {
      KeptFail(h3, i, ERROR_NO_FREE_STORE);
    }
    KeptTwice(h, h3, r, i);
  }

  lemma KeptLength(h: H, r: H, i: nat)
    requires Kept(h, r, i)
    ensures |r.transfers| == |h.transfers|
  {
  }

  /** The packet taken from the data leaves the files alone; what the switch does with it is the one
      place where a payload can become acknowledged. */
  lemma KeptPacket(h: H, i: nat, x: Extracted)
    requires i < |h.transfers|
    ensures Kept(h, TakePacket(h, i, x), i)
  {
    hide Fail, Kept, Overlay;
    match x
    case Payload(_) => KeptSame(h, TakePacket(h, i, x), i);
    case Rejected(errno) => KeptFail(h, i, errno);
  }

  /** Whether the switch finds the acknowledgement the transfer waits for. */
  predicate Acknowledges(h: H, i: nat)
    requires i < |h.transfers| && |h.tftppkt| >= 4
  {
    var t := h.transfers[i];
    && GetOpcode(h.tftppkt) == OP_ACK && t.state == DataSent && GetBlknum(h.tftppkt) == t.blknum
    && t.buffers != [] && InBounds(t.buffers[0])
  }

  lemma KeptAck(h: H, i: nat)
    requires i < |h.transfers| && |h.tftppkt| >= 4 && GetOpcode(h.tftppkt) == OP_ACK && !Acknowledges(h, i)
    ensures Kept(h, DoAck(h, i, GetBlknum(h.tftppkt)), i)
  {
    hide Fail, Kept, InBounds, HasInternal, GetOpcode, GetBlknum;
    KeptFail(h, i, ERROR_TFTP_WRONG_BLOCK_NUM);
    var r := DoAck(h, i, GetBlknum(h.tftppkt));
    if h.transfers[i].state != DataSent || GetBlknum(h.tftppkt) == h.transfers[i].blknum {
      KeptSame(h, r, i);
    }
  }

  lemma KeptReply(h: H, i: nat)
    requires i < |h.transfers| && |h.tftppkt| >= 4 && !Acknowledges(h, i)
    ensures Kept(h, DoReply(h, i), i)
  {
    hide Fail, Kept, DoAck, Acknowledges, GetOpcode, GetBlknum;
    if GetOpcode(h.tftppkt) == OP_ACK {
      KeptAck(h, i);
    } else {
      KeptFail(h, i, ERROR_TFTP_GENERIC_ERROR);
      KeptFail(h, i, ERROR_TFTP_UNKNOWN_OPCODE);
    }
  }

  /** Only a timeout can strand a transfer. */
  lemma HandleStrands(h: H, net: Net)
    requires PtrOk(h) && h.port != [] && h.port[0] != TimerReply
    ensures Handle(h, net).stranded == h.stranded
  {
    hide PtrOk, DoFindOutput, DoWrite, DoEnd, DoSendNextFile, DoSendNextBuffer, DoContinueBuffer, DoBufferFinished;
    hide DoFileDone, DoSerialReply, DoTimerExpired, Abort;
    assert Points(h.port[0], |h.transfers|) by {
      PortPoints(h);
    }
  }

  lemma PortPoints(h: H)
    requires PtrOk(h) && h.port != []
    ensures Points(h.port[0], |h.transfers|)
  {
  }

  /** The transfer a timeout fails. */
  function TimedOut(h: H): nat {
    if h.local.Some? then h.local.value else 0
  }

  lemma KeptTimer(h: H)
    requires PtrOk(h)
    ensures Kept(h, DoTimerExpired(h), TimedOut(h))
  {
    hide Fail, Kept, Without;
    var h1, i := Abandon(h), TimedOut(h);
    KeptSame(h, h1, i);
    if h.local.Some? {
      KeptFail(h1, i, ERROR_IO_TIMEOUT);
      KeptTwice(h, h1, DoTimerExpired(h), i);
    } else {
      KeptSame(h, DoTimerExpired(h), i);
    }
  }

  lemma KeptDone(h: H, i: nat)
    requires i < |h.transfers|
    ensures Kept(h, DoFileDone(h, i), i)
  {
    hide HasInternal, Unacked;
    KeptSet(h, DoFileDone(h, i), i);
  }

  /** The state do_read_return has reached when it looks at the opcode. */
  function Opened(h: H, i: nat, mem: bool): (r: H)
    requires i < |h.transfers| && h.serial.Replied?
    ensures |r.transfers| == |h.transfers| && |r.tftppkt| >= |h.tftppkt|
  {
    TakePacket(TakeStatus(StopTimer(h), i), i, if mem then h.serial.reply else Rejected(ERROR_NO_FREE_STORE))
  }

  lemma KeptOpened(h: H, i: nat, mem: bool)
    requires i < |h.transfers| && h.serial.Replied?
    ensures Kept(h, Opened(h, i, mem), i)
  {
    hide Fail, TakeStatus, TakePacket, Kept, Without;
    var h1 := StopTimer(h);
    KeptSame(h, h1, i);
    var h2 := TakeStatus(h1, i);
    KeptStatus(h1, i);
    KeptTwice(h, h1, h2, i);
    KeptLength(h, h2, i);
    KeptPacket(h2, i, if mem then h.serial.reply else Rejected(ERROR_NO_FREE_STORE));
    KeptTwice(h, h2, Opened(h, i, mem), i);
  }

  lemma ArgPoints(h: H)
    requires PtrOk(h)
    ensures (h.ioArg.Some? ==> h.ioArg.value < |h.transfers|) && |h.tftppkt| >= 4
  {
  }

  lemma FailState(h: H, i: nat, error: nat)
    requires i < |h.transfers|
    ensures |Fail(h, i, error).transfers| == |h.transfers| && Fail(h, i, error).transfers[i].state == Error
  {
  }

  lemma OpenedFailed(h: H, i: nat, mem: bool)
    requires i < |h.transfers| && h.serial.Replied?
    requires h.serial.status > 0 || !mem || h.serial.reply.Rejected?
    ensures Opened(h, i, mem).transfers[i].state == Error
  {
    hide Fail, Without, Overlay;
    var h1 := StopTimer(h);
    var h2 := TakeStatus(h1, i);
    if h.serial.status > 0 {
      FailState(h1.(serial := Idle), i, h.serial.status);
    }
    if !mem {
      FailState(h2, i, ERROR_NO_FREE_STORE);
    } else if h.serial.reply.Rejected? {
      FailState(h2, i, h.serial.reply.errno);
    }
  }

  /** An acknowledgement is found only if the read succeeded and its data could be extracted; then
      nothing but the buffer at the head and the acknowledged payloads change. */
  lemma AckEffect(h: H, i: nat, mem: bool)
    requires PtrOk(h) && i < |h.transfers| && HasData(h.serial) && Acknowledges(Opened(h, i, mem), i)
    ensures h.serial.status == 0 && mem && h.serial.reply.Payload?
    ensures Opened(h, i, mem).tftppkt == Overlay(h.tftppkt, h.serial.reply.bytes)
    ensures Acknowledges(h.(tftppkt := Overlay(h.tftppkt, h.serial.reply.bytes)), i)
    ensures var r := DoReadReturn(h, i, mem);
            r.started == h.started && r.ioArg == h.ioArg && r.transfers == h.transfers[i := Acked(h.transfers[i])]
  {
    hide Without, HasInternal, Chunk, InBounds, GetOpcode, GetBlknum, Overlay, PtrOk, Fail;
    if h.serial.status > 0 || !mem || h.serial.reply.Rejected? {
      OpenedFailed(h, i, mem);
    }
    ArgPoints(h);
  }

  lemma KeptReadReturn(h: H, i: nat, mem: bool)
    requires PtrOk(h) && i < |h.transfers|
    requires HasData(h.serial) ==> !Acknowledges(Opened(h, i, mem), i)
    ensures Kept(h, DoReadReturn(h, i, mem), i)
  {
    hide Fail, TakeStatus, TakePacket, Kept, Without, Acknowledges, DoReply, PtrOk;
    if HasData(h.serial) {
      ArgPoints(h);
      KeptOpened(h, i, mem);
      KeptReply(Opened(h, i, mem), i);
      KeptTwice(h, Opened(h, i, mem), DoReadReturn(h, i, mem), i);
    } else {
      KeptSame(h, DoReadReturn(h, i, mem), i);
    }
  }

  /** The pass in which the last buffer turns out to have been sent. */
  predicate Finishing(h: H)
    requires PtrOk(h) && h.port != []
  {
    assert Points(h.port[0], |h.transfers|);
    h.port[0].SendNextBuffer? && h.transfers[h.port[0].ftx].buffers == []
  }

  function FinishedAt(ts: seq<Ftx>, i: nat): seq<Ftx>
    requires i < |ts|
  {
    ts[i := ts[i].(state := Finished)]
  }

  lemma FinishEffect(h: H, net: Net)
    requires PtrOk(h) && h.port != [] && Finishing(h)
    ensures h.port[0].ftx < |h.transfers| && Handle(h, net).transfers == FinishedAt(h.transfers, h.port[0].ftx)
  {
    hide HasInternal;
    PortPoints(h);
  }
}

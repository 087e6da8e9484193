/** Which error a file ends with: the cause of every failure, told from the message that is handled, the
    reply it announces and the records before it. */
module Causes {
  import opened Bytes
  import opened Messages
  import opened Packets
  import opened Engine
  import opened Files
  import opened Ownership
  import opened Effects
  import opened Overtaking
  import opened Delivery
  import opened SelfStop

  /** A file that fails, and its error. */
  datatype Failure = Failure(ftx: nat, error: nat)

  /** What keeps a packet from being sent: 103 (no free store) or 303 (buffer overflow). */
  function SendCause(i: nat, net: Net): Option<Failure> {
    if !net.mem then Some(Failure(i, 103))
    else if !net.fits then Some(Failure(i, 303))
    else None
  }

  /** A byte of what the opcode switch looks at: the packet just read or, as far as nothing could be taken
      out of it, the one before. */
  function Shown(h: H, mem: bool, k: nat): byte
    requires k < |h.tftppkt| && h.serial.Replied?
  {
    if mem && h.serial.reply.Payload? && k < |h.serial.reply.bytes| then h.serial.reply.bytes[k] else h.tftppkt[k]
  }

  /** A number of two of these bytes. */
  function ShownWord(h: H, mem: bool, k: nat): nat
    requires k + 1 < |h.tftppkt| && h.serial.Replied?
  {
    Field([Shown(h, mem, k), Shown(h, mem, k + 1)], 0)
  }

  /** The failure a completed read leads to. An ERROR packet (opcode 5) is error 1000 and any other but an
      ACK (opcode 4) is 1001, even if the read has failed and the packet is an old one; otherwise it is what
      was wrong with the data, or with the read, or, 1002, the number of the block. */
  function ReadCause(h: H, i: nat, mem: bool): Option<Failure>
    requires i < |h.transfers| && |h.tftppkt| >= 4
  {
    if !HasData(h.serial) then None
    else if ShownWord(h, mem, 0) == 5 then Some(Failure(i, 1000))
    else if ShownWord(h, mem, 0) != 4 then Some(Failure(i, 1001))
    else if !mem then Some(Failure(i, 103))
    else if h.serial.reply.Rejected? then Some(Failure(i, h.serial.reply.errno))
    else if h.serial.status > 0 then Some(Failure(i, h.serial.status))
    else if h.transfers[i].state == DataSent && ShownWord(h, mem, 2) != h.transfers[i].blknum then
      Some(Failure(i, 1002))
    else None
  }

  function WriteCause(h: H, i: nat, mem: bool): Option<Failure> {
    if !mem then Some(Failure(i, 103))
    else if h.serial.Replied? && h.serial.status > 0 then Some(Failure(i, h.serial.status))
    else None
  }

  function ChunkCause(b: FileBuf, i: nat, net: Net): Option<Failure> {
    if InBounds(b) then SendCause(i, net) else None
  }

  /** The failure a pass leads to, if any; 1004 is a timeout. */
  function Cause(h: H, net: Net): Option<Failure>
    requires PtrOk(h) && h.port != []
  {
    assert Points(h.port[0], |h.transfers|);
    match h.port[0]
    case Write(i, _) => if net.mem then None else Some(Failure(i, 103))
    case SendNextFile =>
      if h.busy || NextReady(h.transfers, 0) == None then None else SendCause(NextReady(h.transfers, 0).value, net)
    case SendNextBuffer(i) =>
      if h.transfers[i].buffers == [] then None else ChunkCause(h.transfers[i].buffers[0], i, net)
    case ContinueBuffer(i) =>
      if h.transfers[i].buffers == [] then None else ChunkCause(Advanced(h.transfers[i]).buffers[0], i, net)
    case TimerReply => if h.local == None then None else Some(Failure(h.local.value, 1004))
    case SerialReply =>
      if h.ioArg == None then None
      else
        (match h.ioType
         case WriteReturn => WriteCause(h, h.ioArg.value, net.mem)
         case ReadReturn => ReadCause(h, h.ioArg.value, net.mem)
         case NoIo => None)
    case _ => None
  }

  // ---------------------------------------------------------------------------------------
  // Parts of a pass
  // ---------------------------------------------------------------------------------------

  /** No file but i fails. */
  predicate Unfailed(a: seq<Ftx>, b: seq<Ftx>, i: Option<nat>) {
    forall j :: 0 <= j < |b| && b[j].state == Error && i != Some(j) ==>
      j < |a| && a[j].state == Error && b[j].error == a[j].error
  }

  /** From a to r file i fails with this error, which is announced. */
  predicate FailsWith(a: seq<Ftx>, r: H, f: Failure) {
    && f.ftx < |a| == |r.transfers| && Unfailed(a, r.transfers, Some(f.ftx))
    && r.transfers[f.ftx].state == Error && r.transfers[f.ftx].error == f.error
    && r.port != [] && r.port[|r.port| - 1] == FileFailed(f.ftx)
  }

  /** From a to r exactly this happens; a failure frees the link. */
  predicate Befalls(a: seq<Ftx>, r: H, f: Option<Failure>) {
    match f
    case None => Unfailed(a, r.transfers, None)
    case Some(fail) => FailsWith(a, r, fail) && !r.busy
  }

  lemma SameLeads(a: seq<Ftx>, r: H)
    requires r.transfers == a
    ensures Befalls(a, r, None)
  {
  }

  lemma OneLeads(a: seq<Ftx>, r: H, i: nat)
    requires i < |a| == |r.transfers| && forall j :: 0 <= j < |a| && j != i ==> r.transfers[j] == a[j]
    requires r.transfers[i].state == Error ==> a[i].state == Error && r.transfers[i].error == a[i].error
    ensures Befalls(a, r, None)
  {
  }

  lemma FailLeads(a: seq<Ftx>, h: H, i: nat, error: nat)
    requires i < |h.transfers| == |a| && Unfailed(a, h.transfers, Some(i))
    ensures Befalls(a, Fail(h, i, error), Some(Failure(i, error)))
  {
    hide HasInternal;
  }

  lemma AnyUnfailed(a: seq<Ftx>, i: Option<nat>)
    ensures Unfailed(a, a, i)
  {
  }

  lemma SendLeads(a: seq<Ftx>, h: H, i: nat, p: Packet, next: FileState, net: Net)
    requires i < |h.transfers| == |a| && (forall j :: 0 <= j < |a| && j != i ==> h.transfers[j] == a[j])
    requires next != Error
    ensures Befalls(a, Send(h, i, p, next, net), SendCause(i, net))
  {
    hide Fail, Befalls;
    if SendError(net) == 0 {
      OneLeads(a, Send(h, i, p, next, net), i);
    } else {
      FailLeads(a, h, i, SendError(net));
    }
  }

  lemma ChunkLeads(a: seq<Ftx>, h: H, i: nat, net: Net)
    requires i < |h.transfers| == |a| && (forall j :: 0 <= j < |a| && j != i ==> h.transfers[j] == a[j])
    requires h.transfers[i].state == Error ==> a[i].state == Error && h.transfers[i].error == a[i].error
    requires h.transfers[i].buffers != []
    ensures Befalls(a, SendChunk(h, i, net), ChunkCause(h.transfers[i].buffers[0], i, net))
  {
    hide Befalls, Send, Chunk, InBounds;
    var t := h.transfers[i];
    if InBounds(t.buffers[0]) {
      var h1 := SetFtx(h, i, t.(blknum := (t.blknum + 1) % TWO32)).(ioType := WriteReturn);
      SendLeads(a, h1, i, Data((t.blknum + 1) % TWO32 % 0x10000, Chunk(t.buffers[0])), DataSent, net);
    } else {
      OneLeads(a, SendChunk(h, i, net), i);
    }
  }

  lemma NextLeads(h: H, i: nat, net: Net)
    requires i < |h.transfers|
    ensures Befalls(h.transfers, DoSendNextBuffer(h, i, net),
                  if h.transfers[i].buffers == [] then None else ChunkCause(h.transfers[i].buffers[0], i, net))
  {
    hide Befalls, SendChunk, HasInternal;
    var t, h1 := h.transfers[i], h.(local := Some(i));
    if t.buffers != [] {
      ChunkLeads(h.transfers, h1, i, net);
    } else {
      OneLeads(h.transfers, DoSendNextBuffer(h, i, net), i);
    }
  }

  lemma ContinueLeads(h: H, i: nat, net: Net)
    requires i < |h.transfers|
    ensures Befalls(h.transfers, DoContinueBuffer(h, i, net),
                  if h.transfers[i].buffers == [] then None
                  else ChunkCause(Advanced(h.transfers[i]).buffers[0], i, net))
  {
    hide Befalls, SendChunk, ChunkCause;
    var t, h1 := h.transfers[i], h.(local := Some(i));
    if t.buffers != [] {
      ChunkLeads(h.transfers, SetFtx(h1, i, Advanced(t)), i, net);
    } else {
      SameLeads(h.transfers, DoContinueBuffer(h, i, net));
    }
  }

  lemma ReleaseLeads(h: H, i: nat)
    requires i < |h.transfers|
    ensures Befalls(h.transfers, DoBufferFinished(h, i), None)
  {
    hide Befalls, SendInternal;
    var t, h1 := h.transfers[i], h.(local := Some(i));
    if t.buffers == [] {
      SameLeads(h.transfers, DoBufferFinished(h, i));
    } else {
      var h2 := SetFtx(h1, i, t.(buffers := t.buffers[1..]));
      OneLeads(h.transfers, h2, i);
      QueuedLeads(h.transfers, h2, SendNextBuffer(i));
    }
  }

  lemma DoneLeads(h: H, i: nat)
    requires i < |h.transfers|
    ensures Befalls(h.transfers, DoFileDone(h, i), None)
  {
    hide Befalls, HasInternal, Unacked;
    OneLeads(h.transfers, DoFileDone(h, i), i);
  }

  lemma TimerLeads(h: H)
    requires PtrOk(h)
    ensures Befalls(h.transfers, DoTimerExpired(h),
                  if h.local == None then None else Some(Failure(h.local.value, 1004)))
  {
    hide Befalls, Fail, Abort;
    AbandonedFiles(h);
    if h.local.Some? {
      AnyUnfailed(h.transfers, h.local);
      FailLeads(h.transfers, Abandon(h), h.local.value, ERROR_IO_TIMEOUT);
    } else {
      SameLeads(h.transfers, DoTimerExpired(h));
    }
  }

  lemma AbandonedFiles(h: H)
    ensures Abandon(h).transfers == h.transfers && Abandon(h).local == h.local
    ensures PtrOk(h) && h.local.Some? ==> h.local.value < |h.transfers|
  {
    hide Without;
  }

  lemma PickLeads(h: H, net: Net)
    ensures Befalls(h.transfers, DoSendNextFile(h, net),
                  if h.busy || NextReady(h.transfers, 0) == None then None
                  else SendCause(NextReady(h.transfers, 0).value, net))
  {
    hide Befalls, Send, NextReady, SendCause;
    if h.busy || NextReady(h.transfers, 0) == None {
      SameLeads(h.transfers, DoSendNextFile(h, net));
    } else {
      var i := NextReady(h.transfers, 0).value;
      SendLeads(h.transfers, Picked(h, i), i, Wrq(h.transfers[i].name), WrqSent, net);
    }
  }

  // ---------------------------------------------------------------------------------------
  // Completions
  // ---------------------------------------------------------------------------------------

  lemma StatusLeads(h: H, i: nat)
    requires i < |h.transfers|
    ensures |TakeStatus(h, i).transfers| == |h.transfers| && Unfailed(h.transfers, TakeStatus(h, i).transfers, Some(i))
    ensures Befalls(h.transfers, TakeStatus(h, i),
                  if h.serial.Replied? && h.serial.status > 0 then Some(Failure(i, h.serial.status)) else None)
    ensures !(h.serial.Replied? && h.serial.status > 0) ==> TakeStatus(h, i).transfers == h.transfers
  {
    hide Fail;
    if h.serial.Replied? && h.serial.status > 0 {
      AnyUnfailed(h.transfers, Some(i));
      FailLeads(h.transfers, h.(serial := Idle), i, h.serial.status);
    }
  }

  lemma WriteLeads(h: H, i: nat, mem: bool)
    requires i < |h.transfers|
    ensures Befalls(h.transfers, DoWriteReturn(h, i, mem), WriteCause(h, i, mem))
  {
    hide Fail, TakeStatus, Without;
    var h1 := StopTimer(h);
    StatusLeads(h1, i);
    var h2 := TakeStatus(h1, i);
    if !mem {
      FailLeads(h.transfers, h2.(ioType := ReadReturn), i, ERROR_NO_FREE_STORE);
    }
  }

  lemma OpenedLeads(h: H, i: nat, mem: bool)
    requires i < |h.transfers| && h.serial.Replied?
    ensures Befalls(h.transfers, Opened(h, i, mem),
                  if !mem then Some(Failure(i, 103))
                  else if h.serial.reply.Rejected? then Some(Failure(i, h.serial.reply.errno))
                  else if h.serial.status > 0 then Some(Failure(i, h.serial.status))
                  else None)
  {
    hide Fail, TakeStatus, Without, Overlay;
    var h1 := StopTimer(h);
    StatusLeads(h1, i);
    var h2 := TakeStatus(h1, i);
    match Seen(h, mem)
    case Rejected(errno) => FailLeads(h.transfers, h2, i, errno);
    case Payload(_) =>
  }

  /** The opcode switch, for a file that has not failed, or for one that has. */
  lemma SwitchLeads(a: seq<Ftx>, h: H, i: nat)
    requires i < |h.transfers| == |a| && |h.tftppkt| >= 4 && Unfailed(a, h.transfers, Some(i))
    ensures Field(h.tftppkt, 0) == 5 ==> Befalls(a, DoReply(h, i), Some(Failure(i, 1000)))
    ensures Field(h.tftppkt, 0) != 4 && Field(h.tftppkt, 0) != 5 ==> Befalls(a, DoReply(h, i), Some(Failure(i, 1001)))
    ensures var t := h.transfers[i];
            Field(h.tftppkt, 0) == 4 && t.state == DataSent && Field(h.tftppkt, 2) != t.blknum ==>
              Befalls(a, DoReply(h, i), Some(Failure(i, 1002)))
  {
    hide Fail, DoAcked, Befalls;
    FailLeads(a, h, i, 1000);
    FailLeads(a, h, i, 1001);
    FailLeads(a, h, i, 1002);
  }

  lemma SwitchStops(h: H, i: nat)
    requires i < |h.transfers| && |h.tftppkt| >= 4 && Field(h.tftppkt, 0) == 4 && h.transfers[i].state == Error
    ensures DoReply(h, i) == h.(busy := false, running := false)
  {
    hide Fail, DoAcked;
  }

  lemma AckLeads(h: H, i: nat)
    requires i < |h.transfers| && |h.tftppkt| >= 4 && Field(h.tftppkt, 0) == 4
    requires h.transfers[i].state == DataSent ==> Field(h.tftppkt, 2) == h.transfers[i].blknum
    ensures Befalls(h.transfers, DoReply(h, i), None)
  {
    hide Fail, DoAcked, HasInternal, Befalls;
    AckedLeads(h, i);
    if h.transfers[i].state != DataSent {
      SameLeads(h.transfers, DoReply(h, i));
    }
  }

  lemma QueuedLeads(a: seq<Ftx>, h: H, m: Msg<nat>)
    requires Befalls(a, h, None)
    ensures Befalls(a, SendInternal(h, m), None)
  {
    hide HasInternal;
  }

  lemma AckedLeads(h: H, i: nat)
    requires i < |h.transfers|
    ensures Befalls(h.transfers, DoAcked(h, i), None)
  {
    hide HasInternal, Chunk, InBounds, Befalls, SendInternal;
    var t := h.transfers[i];
    if t.buffers == [] || !InBounds(t.buffers[0]) {
      SameLeads(h.transfers, DoAcked(h, i));
    } else {
      var h1 := SetFtx(h, i, Acked(t));
      var m := if t.buffers[0].left - TFTP_MAX_DATA_SIZE > 0 then ContinueBuffer(i) else BufferFinished(i);
      OneLeads(h.transfers, h1, i);
      QueuedLeads(h.transfers, h1, m);
    }
  }

  /** What the switch sees. */
  lemma ShownIs(h: H, mem: bool)
    requires h.serial.Replied? && |h.tftppkt| >= 4
    ensures |Examined(h, mem)| >= 4
    ensures Field(Examined(h, mem), 0) == ShownWord(h, mem, 0) && Field(Examined(h, mem), 2) == ShownWord(h, mem, 2)
  {
  }

  lemma GoodReadLeads(h: H, i: nat)
    requires i < |h.transfers| && HasData(h.serial) && h.serial.status == 0 && h.serial.reply.Payload?
    requires |h.tftppkt| >= 4
    ensures Befalls(h.transfers, DoReply(Opened(h, i, true), i), ReadCause(h, i, true))
  {
    hide Befalls, DoReply, Examined, ShownWord, Opened;
    OpenedPacket(h, i, true);
    OpenedGood(h, i);
    ShownIs(h, true);
    AnyUnfailed(h.transfers, Some(i));
    var o := Opened(h, i, true);
    SwitchLeads(h.transfers, o, i);
    if ReadCause(h, i, true) == None {
      AckLeads(o, i);
    }
  }

  lemma BadReadLeads(h: H, i: nat, mem: bool)
    requires i < |h.transfers| && HasData(h.serial) && |h.tftppkt| >= 4
    requires h.serial.status > 0 || !mem || h.serial.reply.Rejected?
    ensures Befalls(h.transfers, DoReply(Opened(h, i, mem), i), ReadCause(h, i, mem))
  {
    hide DoReply, Examined, ShownWord, Opened;
    OpenedPacket(h, i, mem);
    OpenedLeads(h, i, mem);
    ShownIs(h, mem);
    var o := Opened(h, i, mem);
    SwitchLeads(h.transfers, o, i);
    if ShownWord(h, mem, 0) == 4 {
      SwitchStops(o, i);
    }
  }

  lemma ReadLeads(h: H, i: nat, mem: bool)
    requires PtrOk(h) && i < |h.transfers|
    ensures |h.tftppkt| >= 4 && Befalls(h.transfers, DoReadReturn(h, i, mem), ReadCause(h, i, mem))
  {
    hide Befalls, DoReply, TakeStatus, TakePacket, ShownWord, Without;
    if HasData(h.serial) {
      ReadReturnIs(h, i, mem);
      if h.serial.status == 0 && mem && h.serial.reply.Payload? {
        GoodReadLeads(h, i);
      } else {
        BadReadLeads(h, i, mem);
      }
    } else {
      SameLeads(h.transfers, DoReadReturn(h, i, mem));
    }
  }

  lemma SameReadCause(h: H, i: nat, mem: bool)
    requires h.port != [] && i < |h.transfers| && |h.tftppkt| >= 4
    ensures ReadCause(Rest1(h), i, mem) == ReadCause(h, i, mem)
  {
  }

  lemma SerialLeads(h: H, net: Net)
    requires PtrOk(h) && h.port != [] && h.port[0] == SerialReply
    ensures Befalls(h.transfers, Handle(h, net), Cause(h, net))
  {
    hide Befalls, PtrOk, DoWriteReturn, DoReadReturn, ReadCause;
    HeadPoints(h);
    ArgPoints(h);
    var h1 := Rest1(h);
    if h.ioArg.None? || h.ioType == NoIo {
      SameLeads(h.transfers, Handle(h, net));
    } else if h.ioType == WriteReturn {
      WriteLeads(h1, h.ioArg.value, net.mem);
    } else {
      ReadLeads(h1, h.ioArg.value, net.mem);
      SameReadCause(h, h.ioArg.value, net.mem);
    }
  }

  // ---------------------------------------------------------------------------------------
  // Clients
  // ---------------------------------------------------------------------------------------

  lemma WriteFails(h: H, i: nat, bytes: seq<byte>)
    requires i < |h.transfers|
    ensures FailsWith(h.transfers, DoWrite(h, i, bytes, false), Failure(i, 103))
  {
    hide HasInternal;
  }

  lemma OpenLeads(h: H, name: CString, mem: bool)
    ensures Befalls(h.transfers, DoFindOutput(h, name, mem), None)
  {
    hide Min;
  }

  lemma EndLeads(h: H, i: nat)
    requires i < |h.transfers|
    ensures Befalls(h.transfers, DoEnd(h, i), None) && DoEnd(h, i).local == Some(i)
  {
    hide Befalls, HasInternal;
    OneLeads(h.transfers, DoEnd(h, i), i);
  }

  lemma BytesLeads(h: H, i: nat, bytes: seq<byte>)
    requires i < |h.transfers|
    ensures Befalls(h.transfers, DoWrite(h, i, bytes, true), None)
  {
    hide Befalls, HasInternal, FreshBuf;
    OneLeads(h.transfers, DoWrite(h, i, bytes, true), i);
  }

  lemma ClientLeads(h: H, net: Net)
    requires PtrOk(h) && h.port != [] && KindOf(h.port[0]) == Client && !(h.port[0].Write? && !net.mem)
    ensures Befalls(h.transfers, Handle(h, net), None)
  {
    hide PtrOk, Befalls, DoWrite, DoEnd, DoFindOutput, Without;
    HeadPoints(h);
    match h.port[0]
    case FindOutput(name) => OpenLeads(Rest1(h), name, net.mem);
    case Write(i, bytes) => BytesLeads(Rest1(h), i, bytes);
    case End(i) => EndLeads(Rest1(h), i);
    case Die => SameLeads(h.transfers, Handle(h, net));
    case Other => SameLeads(h.transfers, Handle(h, net));
  }

  /** In any pass at all, at most one file fails: exactly if there is a cause, the file and the error it
      names. The failure is announced, and the link is free unless a client's write has failed. Every other
      file has failed before, with the same error, or not at all. */
  lemma CauseExact(h: H, net: Net)
    requires PtrOk(h) && h.port != []
    ensures var r, f := Handle(h, net), Cause(h, net);
            && Unfailed(h.transfers, r.transfers, if f.Some? then Some(f.value.ftx) else None)
            && (f.Some? ==> FailsWith(h.transfers, r, f.value) && (h.port[0].Write? || !r.busy))
  {
    hide PtrOk, Handle, Unfailed, Cause;
    PassLeads(h, net);
  }

  lemma PassLeads(h: H, net: Net)
    requires PtrOk(h) && h.port != []
    ensures if h.port[0].Write? && !net.mem
            then Cause(h, net) == Some(Failure(h.port[0].ftx, 103))
                 && FailsWith(h.transfers, Handle(h, net), Cause(h, net).value)
            else Befalls(h.transfers, Handle(h, net), Cause(h, net))
  {
    hide Befalls, FailsWith, PtrOk, DoSendNextBuffer, DoContinueBuffer, DoBufferFinished, DoFileDone, DoTimerExpired,
         DoSendNextFile, DoFindOutput, DoWrite, DoEnd, Abort, DoWriteReturn, DoReadReturn, ReadCause, WriteCause,
         ChunkCause, SendCause;
    HeadPoints(h);
    var h1 := Rest1(h);
    match h.port[0]
    case SendNextFile => PickLeads(h1, net);
    case SendNextBuffer(i) => NextLeads(h1, i, net);
    case ContinueBuffer(i) => ContinueLeads(h1, i, net);
    case BufferFinished(i) => ReleaseLeads(h1, i);
    case FileFinished(i) => DoneLeads(h1, i);
    case FileFailed(i) => DoneLeads(h1, i);
    case TimerReply => TimerLeads(h1);
    case SerialReply => SerialLeads(h, net);
    case Write(i, bytes) =>
      if net.mem {
        ClientLeads(h, net);
      } else {
        WriteFails(h1, i, bytes);
      }
    case _ => ClientLeads(h, net);
  }

  // ---------------------------------------------------------------------------------------
  // Files that become ready
  // ---------------------------------------------------------------------------------------

  /** No file becomes ready. */
  predicate NoneReadied(a: seq<Ftx>, b: seq<Ftx>) {
    forall j :: 0 <= j < |b| && b[j].state == Ready ==> j < |a| && a[j].state == Ready
  }

  lemma KeptReadied(h: H, r: H, i: nat)
    requires Kept(h, r, i)
    ensures NoneReadied(h.transfers, r.transfers)
  {
  }

  lemma SerialReadied(h: H, net: Net)
    requires PtrOk(h) && h.port != [] && h.port[0] == SerialReply
    ensures NoneReadied(h.transfers, Handle(h, net).transfers)
  {
    hide Kept, NoneReadied, DoWriteReturn, DoReadReturn, Acknowledges, PtrOk;
    HeadPoints(h);
    ArgPoints(h);
    var h1, r := Rest1(h), Handle(h, net);
    if h.ioArg.None? || h.ioType == NoIo {
      SameReadied(h.transfers);
    } else if h.ioType == WriteReturn {
      KeptWriteReturn(h1, h.ioArg.value, net.mem);
      KeptReadied(h1, r, h.ioArg.value);
    } else if HasData(h.serial) && Acknowledges(Opened(h1, h.ioArg.value, net.mem), h.ioArg.value) {
      AckEffect(h1, h.ioArg.value, net.mem);
      AckReadied(h1, Overlay(h.tftppkt, h.serial.reply.bytes), h.ioArg.value);
    } else {
      KeptReadReturn(h1, h.ioArg.value, net.mem);
      KeptReadied(h1, r, h.ioArg.value);
    }
  }

  lemma SameReadied(a: seq<Ftx>)
    ensures NoneReadied(a, a)
  {
  }

  lemma AckReadied(h: H, tftppkt: seq<byte>, i: nat)
    requires i < |h.transfers| && |tftppkt| >= 4 && Acknowledges(h.(tftppkt := tftppkt), i)
    ensures NoneReadied(h.transfers, h.transfers[i := Acked(h.transfers[i])])
  {
    hide GetOpcode, GetBlknum, InBounds, Chunk;
  }

  lemma WriteReadied(h: H, i: nat, bytes: seq<byte>, mem: bool)
    requires i < |h.transfers|
    ensures NoneReadied(h.transfers, DoWrite(h, i, bytes, mem).transfers)
  {
    hide HasInternal, FreshBuf;
  }

  lemma OpenReadied(h: H, name: CString, mem: bool)
    ensures NoneReadied(h.transfers, DoFindOutput(h, name, mem).transfers)
  {
    hide Min;
  }

  lemma ClientReadied(h: H, net: Net)
    requires PtrOk(h) && h.port != [] && KindOf(h.port[0]) == Client && !h.port[0].End?
    ensures NoneReadied(h.transfers, Handle(h, net).transfers)
  {
    hide PtrOk, DoWrite, DoFindOutput, Without, NoneReadied;
    HeadPoints(h);
    SameReadied(h.transfers);
    match h.port[0]
    case Write(i, bytes) => WriteReadied(Rest1(h), i, bytes, net.mem);
    case FindOutput(name) => OpenReadied(Rest1(h), name, net.mem);
    case _ =>
  }

  lemma PickReadied(h: H, net: Net)
    requires PtrOk(h) && h.port != [] && h.port[0] == SendNextFile
    ensures NoneReadied(h.transfers, Handle(h, net).transfers)
  {
    hide PtrOk, Send, HasInternal;
    match Starts(h)
    case None =>
    case Some(i) =>
      KeptSend(Picked(Rest1(h), i), i, Wrq(h.transfers[i].name), WrqSent, net);
      SendState(Picked(Rest1(h), i), i, Wrq(h.transfers[i].name), WrqSent, net);
  }

  lemma PassReadied(h: H, net: Net)
    requires PtrOk(h) && h.port != [] && !h.port[0].End?
    ensures NoneReadied(h.transfers, Handle(h, net).transfers)
  {
    hide NoneReadied, Kept, PtrOk, DoSendNextBuffer, DoContinueBuffer, DoBufferFinished, DoFileDone, DoTimerExpired,
         DoSendNextFile, DoSerialReply, DoFindOutput, DoWrite, Abort;
    HeadPoints(h);
    var m, h1, r := h.port[0], Rest1(h), Handle(h, net);
    match m
    case SendNextFile => PickReadied(h, net);
    case SendNextBuffer(i) =>
      if Finishing(h) {
        FinishEffect(h, net);
        FinishReadied(h.transfers, i);
      } else {
        KeptActive(h1, m, net);
        KeptReadied(h1, r, i);
      }
    case ContinueBuffer(i) => KeptActive(h1, m, net); KeptReadied(h1, r, i);
    case BufferFinished(i) => KeptActive(h1, m, net); KeptReadied(h1, r, i);
    case FileFinished(i) => KeptDone(h1, i); KeptReadied(h1, r, i);
    case FileFailed(i) => KeptDone(h1, i); KeptReadied(h1, r, i);
    case TimerReply => KeptTimer(h1); KeptReadied(h1, r, TimedOut(h1));
    case SerialReply => SerialReadied(h, net);
    case _ => ClientReadied(h, net);
  }

  lemma FinishReadied(a: seq<Ftx>, i: nat)
    requires i < |a|
    ensures NoneReadied(a, FinishedAt(a, i))
  {
  }

  /** In any pass at all, a file that was not ready becomes ready exactly if its END is handled, whatever it
      was before; and END always asks for the next file. */
  lemma ReadyExact(h: H, net: Net, j: nat)
    requires PtrOk(h) && h.port != [] && j < |Handle(h, net).transfers|
    requires j < |h.transfers| ==> h.transfers[j].state != Ready
    ensures Handle(h, net).transfers[j].state == Ready <==> h.port[0] == End(j)
    ensures h.port[0].End? ==> SendNextFile in Handle(h, net).port
  {
    hide PtrOk, Handle, DoEnd;
    if h.port[0].End? {
      EndReadies(h, net);
    } else {
      PassReadied(h, net);
    }
  }

  lemma EndReadies(h: H, net: Net)
    requires PtrOk(h) && h.port != [] && h.port[0].End?
    ensures var i := h.port[0].ftx;
            && i < |h.transfers| && SendNextFile in Handle(h, net).port
            && Handle(h, net).transfers == h.transfers[i := h.transfers[i].(state := Ready)]
  {
    hide PtrOk, HasInternal;
    HeadPoints(h);
  }

  // ---------------------------------------------------------------------------------------
  // The file a timeout fails
  // ---------------------------------------------------------------------------------------

  /** The file the main loop has in hand after a message: the one that is ended, continued or announced, or
      the one, if any, that is looked for with the link free; all others leave it as it is. */
  function InHand(h: H): Option<nat>
    requires h.port != []
  {
    match h.port[0]
    case End(i) => Some(i)
    case SendNextBuffer(i) => Some(i)
    case ContinueBuffer(i) => Some(i)
    case BufferFinished(i) => Some(i)
    case FileFinished(i) => Some(i)
    case FileFailed(i) => Some(i)
    case SendNextFile => if h.busy then h.local else NextReady(h.transfers, 0)
    case _ => h.local
  }

  lemma FailLocal(h: H, i: nat, error: nat)
    requires i < |h.transfers|
    ensures Fail(h, i, error).local == h.local && |Fail(h, i, error).transfers| == |h.transfers|
  {
  }

  lemma SendLocal(h: H, i: nat, p: Packet, next: FileState, net: Net)
    requires i < |h.transfers|
    ensures Send(h, i, p, next, net).local == h.local
  {
    hide Fail;
    FailLocal(h, i, SendError(net));
  }

  lemma ChunkLocal(h: H, i: nat, net: Net)
    requires i < |h.transfers| && h.transfers[i].buffers != []
    ensures SendChunk(h, i, net).local == h.local
  {
    hide Send, Chunk, InBounds;
    var t := h.transfers[i];
    if InBounds(t.buffers[0]) {
      var h1 := SetFtx(h, i, t.(blknum := (t.blknum + 1) % TWO32)).(ioType := WriteReturn);
      SendLocal(h1, i, Data((t.blknum + 1) % TWO32 % 0x10000, Chunk(t.buffers[0])), DataSent, net);
    }
  }

  lemma NextLocal(h: H, i: nat, net: Net)
    requires i < |h.transfers|
    ensures DoSendNextBuffer(h, i, net).local == Some(i)
  {
    hide SendChunk, HasInternal;
    if h.transfers[i].buffers != [] {
      ChunkLocal(h.(local := Some(i)), i, net);
    }
  }

  lemma ContinueLocal(h: H, i: nat, net: Net)
    requires i < |h.transfers|
    ensures DoContinueBuffer(h, i, net).local == Some(i)
  {
    hide SendChunk;
    if h.transfers[i].buffers != [] {
      ChunkLocal(SetFtx(h.(local := Some(i)), i, Advanced(h.transfers[i])), i, net);
    }
  }

  lemma ReleaseLocal(h: H, i: nat)
    requires i < |h.transfers|
    ensures DoBufferFinished(h, i).local == DoFileDone(h, i).local == Some(i)
  {
    hide HasInternal, Unacked;
  }

  lemma PickLocal(h: H, net: Net)
    ensures DoSendNextFile(h, net).local == if h.busy then h.local else NextReady(h.transfers, 0)
  {
    hide Send, NextReady;
    if !h.busy && NextReady(h.transfers, 0).Some? {
      var i := NextReady(h.transfers, 0).value;
      SendLocal(Picked(h, i), i, Wrq(h.transfers[i].name), WrqSent, net);
    }
  }

  lemma StatusLocal(h: H, i: nat)
    requires i < |h.transfers|
    ensures TakeStatus(h, i).local == h.local && |TakeStatus(h, i).transfers| == |h.transfers|
  {
    hide Fail;
    if h.serial.Replied? {
      FailLocal(h.(serial := Idle), i, h.serial.status);
    }
  }

  lemma WriteLocal(h: H, i: nat, mem: bool)
    requires i < |h.transfers|
    ensures DoWriteReturn(h, i, mem).local == h.local
  {
    hide Fail, TakeStatus, Without;
    StatusLocal(StopTimer(h), i);
    FailLocal(TakeStatus(StopTimer(h), i).(ioType := ReadReturn), i, ERROR_NO_FREE_STORE);
  }

  lemma SwitchLocal(h: H, i: nat)
    requires i < |h.transfers| && |h.tftppkt| >= 4
    ensures DoReply(h, i).local == h.local
  {
    hide Fail, HasInternal, Chunk, InBounds, GetOpcode, GetBlknum;
    FailLocal(h, i, ERROR_TFTP_GENERIC_ERROR);
    FailLocal(h, i, ERROR_TFTP_UNKNOWN_OPCODE);
    FailLocal(h, i, ERROR_TFTP_WRONG_BLOCK_NUM);
  }

  lemma ReadLocal(h: H, i: nat, mem: bool)
    requires PtrOk(h) && i < |h.transfers|
    ensures DoReadReturn(h, i, mem).local == h.local
  {
    hide Fail, TakeStatus, Without, DoReply, Overlay;
    var h1 := StopTimer(h);
    if HasData(h1.serial) {
      StatusLocal(h1, i);
      var h2 := TakeStatus(h1, i);
      if Seen(h, mem).Rejected? {
        FailLocal(h2, i, Seen(h, mem).errno);
      }
      SwitchLocal(TakePacket(h2, i, Seen(h, mem)), i);
    }
  }

  lemma TimerKeepsLocal(h: H)
    requires PtrOk(h)
    ensures DoTimerExpired(h).local == h.local
  {
    hide Fail, Abort;
    AbandonedFiles(h);
    if h.local.Some? {
      FailLocal(Abandon(h), h.local.value, ERROR_IO_TIMEOUT);
    }
  }

  lemma StayLocal(h: H, name: CString, mem: bool)
    ensures DoFindOutput(h, name, mem).local == h.local && Abort(h).(running := false).local == h.local
    ensures forall i: nat, bytes :: i < |h.transfers| ==> DoWrite(h, i, bytes, mem).local == h.local
  {
    hide HasInternal, FreshBuf, NewFtx, Without;
  }

  lemma ClientLocal(h: H, net: Net)
    requires PtrOk(h) && h.port != [] && KindOf(h.port[0]) == Client
    ensures Handle(h, net).local == InHand(h)
  {
    hide PtrOk, DoWrite, DoEnd, DoFindOutput, Abort, NextReady;
    HeadPoints(h);
    StayLocal(Rest1(h), if h.port[0].FindOutput? then h.port[0].path else [], net.mem);
    if h.port[0].End? {
      EndLeads(Rest1(h), h.port[0].ftx);
    }
  }

  /** After any pass the main loop has that file in hand, and a timeout fails it (`CauseExact`). */
  lemma InHandExact(h: H, net: Net)
    requires PtrOk(h) && h.port != []
    ensures Handle(h, net).local == InHand(h)
  {
    hide PtrOk, DoSendNextBuffer, DoContinueBuffer, DoBufferFinished, DoFileDone, DoTimerExpired, DoSendNextFile,
         DoFindOutput, DoWrite, DoEnd, Abort, DoWriteReturn, DoReadReturn, NextReady;
    HeadPoints(h);
    var h1 := Rest1(h);
    match h.port[0]
    case SendNextFile => PickLocal(h1, net);
    case SendNextBuffer(i) => NextLocal(h1, i, net);
    case ContinueBuffer(i) => ContinueLocal(h1, i, net);
    case BufferFinished(i) => ReleaseLocal(h1, i);
    case FileFinished(i) => ReleaseLocal(h1, i);
    case FileFailed(i) => ReleaseLocal(h1, i);
    case TimerReply => TimerKeepsLocal(h1);
    case SerialReply =>
      ArgPoints(h);
      if h.ioArg.Some? {
        WriteLocal(h1, h.ioArg.value, net.mem);
        ReadLocal(h1, h.ioArg.value, net.mem);
      }
    case _ => ClientLocal(h, net);
  }
}

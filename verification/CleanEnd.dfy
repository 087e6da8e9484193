/** Exactly which files end well: runs without faults of the line or of memory, against the server. */
module CleanEnd {
  import opened Bytes
  import opened Messages
  import opened Packets
  import opened Engine
  import opened Files
  import opened Ownership
  import opened Completions
  import opened Effects
  import opened Overtaking
  import opened Server
  import opened Intake
  import opened Delivery
  import opened Shape

  /** No timeout and no read error, every reply can be extracted, memory suffices, and nobody shuts the
      handler down. Clients may still do what they like. */
  predicate FaultFree(s: Sys, ev: Event) {
    && Allowed(s, ev)
    && match ev
       case Pass(net) => net.mem && s.h.port[0] != Die
       case ReadEnds(_, _) => Extract(Image(s, ev), ImageSize(s, ev)).Payload?
       case ReadFails(_, _) => false
       case TimerEnds => false
       case ClientMsg(m) => m != Die
       case WriteEnds => true
  }

  predicate FramesFit(payloads: seq<seq<byte>>) {
    forall k :: 0 <= k < |payloads| ==> Fits(TftpBytes(Data(Wire(k + 1), payloads[k])))
  }

  /** A file with at most 65535 blocks that all fit their frames. */
  predicate Fitting(writes: seq<seq<byte>>) {
    |Payloads(writes)| <= MAX_BLOCKS && FramesFit(Payloads(writes))
  }

  predicate Sound(writes: seq<seq<byte>>) {
    CleanShape(writes) && Fitting(writes)
  }

  predicate AllClean(ts: seq<Ftx>, clean: set<nat>) {
    forall i :: 0 <= i < |ts| && !Waiting(ts[i]) ==> i in clean
  }

  /** A short block has arrived, and another one after it. */
  predicate EndsEarly(heard: seq<Packet>) {
    exists k :: 0 <= k < |heard| - 1 && heard[k].Data? && |heard[k].bytes| < BLOCK_SIZE
  }

  /** The server was sent more of transfer i after what it took for the end. */
  predicate Refused(sessions: seq<Session>, owners: seq<nat>, i: nat) {
    exists k :: 0 <= k < |owners| && k < |sessions| && owners[k] == i && EndsEarly(sessions[k].heard)
  }

  /** Why transfer i of these writes may have failed. */
  predicate Excused(sessions: seq<Session>, owners: seq<nat>, i: nat, writes: seq<seq<byte>>) {
    !Sound(writes) && (Fitting(writes) ==> Refused(sessions, owners, i))
  }

  predicate ErrorsExcused(sessions: seq<Session>, owners: seq<nat>, ts: seq<Ftx>) {
    forall i :: 0 <= i < |ts| && ts[i].state == Error ==> Excused(sessions, owners, i, ts[i].writes)
  }

  predicate Smooth(s: Sys, ph: Phase) {
    && s.h.running && SysInv(s, ph) && (ph == Rest ==> s.line == [])
    && AllClean(s.h.transfers, s.clean)
    && ErrorsExcused(s.sessions, s.owners, s.h.transfers)
    && (s.h.serial.Replied? && s.h.serial.op.OpRead? ==> s.h.serial.status == 0 && s.h.serial.reply.Payload?)
    && s.h.timer != Fired
  }

  // ---------------------------------------------------------------------------------------
  // Why a transfer fails in such a run
  // ---------------------------------------------------------------------------------------

  /** The next payload of the file cannot be sent. */
  lemma NextUnfit(t: Ftx)
    requires XferOk(t, DataOut) && !Fits(TftpBytes(OnLine(t, DataOut)))
    ensures !Fitting(t.writes)
  {
    hide Fits, TftpBytes, Payloads, XferOk, OnLine, ChunkOf;
    NextPayload(t);
    var p := Payloads(t.writes);
    assert (t.acked + [ChunkOf(t)])[|t.acked|] == ChunkOf(t);
    assert p[|t.acked|] == ChunkOf(t);
  }

  /** Block 65536 is acknowledged as block 0. */
  lemma TooManyBlocks(t: Ftx)
    requires XferOk(t, DataOut) && t.blknum > MAX_BLOCKS
    ensures !Fitting(t.writes)
  {
    hide Payloads, OnLine, ChunkOf, FramesFit;
    NextPayload(t);
  }

  /** The server took an earlier payload for the last one. */
  lemma EarlyEnd(t: Ftx, ses: Session)
    requires XferOk(t, DataOut) && SessionOk(ses) && ses.done && ses.got == t.acked
    requires ses.heard == Numbered(SentTo(t, DataOut))
    ensures !Sound(t.writes) && EndsEarly(ses.heard)
  {
    hide XferOk, OnLine, ChunkOf, CleanShape, FramesFit, Payloads;
    NextPayload(t);
    var p, n := Payloads(t.writes), |t.acked|;
    assert p[n - 1] == (t.acked + [ChunkOf(t)])[n - 1] == ses.got[n - 1];
    assert !Full(p[n - 1]) && n - 1 < |p| - 1;
    assert ses.heard[n - 1] == Data(Wire(n), ses.got[n - 1]);
    ShapeExact(t.writes);
  }

  /** A reply that ends the transfer tells of one of these. */
  lemma RefusalExcused(ses: Session, line: seq<seq<byte>>, t: Ftx, ph: Phase, data: seq<byte>, tftppkt: seq<byte>)
    requires LineOk(Some(ses), line, true, t, ph, Read(0, Payload(data))) && SessionOk(ses)
    requires XferOk(t, ph) && (ph == WrqOut || ph == DataOut) && |tftppkt| >= 4
    requires AfterReply(t, Overlay(tftppkt, data)) == Rest
    ensures !Sound(t.writes) && (Fitting(t.writes) ==> EndsEarly(ses.heard))
  {
    hide Overlay, GetOpcode, GetBlknum, ErrorBytes, AckBytes, CleanShape, FramesFit, ChunkOf, SessionOk, Payloads;
    hide Unacked, EndsEarly, Numbered;
    if ph == WrqOut {
      AckFront(0, tftppkt, data);
    } else if ses.got == SentTo(t, ph) {
      AckFront(Wire(t.blknum), tftppkt, data);
      TooManyBlocks(t);
    } else {
      EarlyEnd(t, ses);
    }
  }

  lemma AckFront(blknum: word, tftppkt: seq<byte>, data: seq<byte>)
    requires |tftppkt| >= 4 && AckBytes(blknum) <= data
    ensures GetOpcode(Overlay(tftppkt, data)) == OP_ACK && GetBlknum(Overlay(tftppkt, data)) == blknum
  {
    AckFields(blknum, []);
    assert AckBytes(blknum) + [] == AckBytes(blknum);
    FrontOfOverlay(tftppkt, data, AckBytes(blknum));
  }

  // ---------------------------------------------------------------------------------------
  // A pass of such a run
  // ---------------------------------------------------------------------------------------

  /** Transfer i, already started, is the only one that changes; if it has failed, it was not sound. */
  lemma TouchOne(
    sessions: seq<Session>, owners: seq<nat>, a: seq<Ftx>, b: seq<Ftx>, clean: set<nat>, i: nat)
    requires AllClean(a, clean) && ErrorsExcused(sessions, owners, a) && i < |a| == |b| && !Waiting(a[i])
    requires forall j :: 0 <= j < |a| && j != i ==> b[j] == a[j]
    requires b[i].state == Error ==> Excused(sessions, owners, i, b[i].writes)
    ensures AllClean(b, clean) && ErrorsExcused(sessions, owners, b)
  {
    hide Excused;
  }

  /** The writes of transfer i are the same, and no other transfer changes. */
  predicate OnlyAt(h: H, r: H, i: nat) {
    && i < |h.transfers| == |r.transfers| && r.transfers[i].writes == h.transfers[i].writes
    && forall j :: 0 <= j < |h.transfers| && j != i ==> r.transfers[j] == h.transfers[j]
  }

  lemma KeptOnly(h: H, r: H, i: nat)
    requires Kept(h, r, i) && i < |h.transfers|
    ensures OnlyAt(h, r, i)
  {
  }

  lemma FinishOnly(h: H, net: Net)
    requires PtrOk(h) && h.port != [] && Finishing(h)
    ensures OnlyAt(h, Handle(h, net), h.port[0].ftx)
    ensures Handle(h, net).transfers[h.port[0].ftx].state == Finished
  {
    FinishEffect(h, net);
  }

  lemma ActiveOnly(h: H, ph: Phase, net: Net)
    requires PtrOk(h) && h.port != [] && Inv(h, ph) && KindOf(h.port[0]) == Active
    ensures h.ioArg.Some? && OnlyAt(h, Handle(h, net), h.ioArg.value)
    ensures Finishing(h) ==> Handle(h, net).transfers[h.ioArg.value].state == Finished
  {
    hide Inv, Up, PtrOk, Kept, Handle, OnlyAt;
    HeadPoints(h);
    TakeToken(h, ph);
    if Finishing(h) {
      FinishOnly(h, net);
    } else {
      KeptActive(Rest1(h), h.port[0], net);
      ActiveIs(h, net);
      KeptOnly(Rest1(h), Handle(h, net), h.port[0].ftx);
      OnlyRest1(h, Handle(h, net), h.port[0].ftx);
    }
  }

  lemma ActiveIs(h: H, net: Net)
    requires PtrOk(h) && h.port != [] && KindOf(h.port[0]) == Active && h.port[0].ftx < |h.transfers|
    ensures Handle(h, net) == match h.port[0]
                              case SendNextBuffer(i) => DoSendNextBuffer(Rest1(h), i, net)
                              case ContinueBuffer(i) => DoContinueBuffer(Rest1(h), i, net)
                              case BufferFinished(i) => DoBufferFinished(Rest1(h), i)
  {
    hide DoSendNextBuffer, DoContinueBuffer, DoBufferFinished;
  }

  lemma OnlyRest1(h: H, r: H, i: nat)
    requires h.port != [] && OnlyAt(Rest1(h), r, i)
    ensures OnlyAt(h, r, i)
  {
  }

  lemma SerialOnly(h: H, ph: Phase, net: Net)
    requires PtrOk(h) && h.port != [] && Inv(h, ph) && h.port[0] == SerialReply
    ensures h.ioArg.Some? && OnlyAt(h, Handle(h, net), h.ioArg.value)
  {
    hide Inv, Up, PtrOk, Kept, OnlyAt, DoWriteReturn, DoReadReturn, Acknowledges, GetOpcode, GetBlknum, Overlay;
    HeadPoints(h);
    ArgPoints(h);
    TakeSerial(h, ph);
    InvActive(h, ph);
    ReplyOp(h, ph);
    var h1, i, r := Rest1(h), h.ioArg.value, Handle(h, net);
    if h.ioType == WriteReturn {
      KeptWriteReturn(h1, i, net.mem);
      KeptOnly(h1, r, i);
      OnlyRest1(h, r, i);
    } else if Acknowledges(Opened(h1, i, net.mem), i) {
      AckEffect(h1, i, net.mem);
      AckedWrites(h, Overlay(h.tftppkt, h.serial.reply.bytes), i, r);
    } else {
      KeptReadReturn(h1, i, net.mem);
      KeptOnly(h1, r, i);
      OnlyRest1(h, r, i);
    }
  }

  lemma AckedWrites(h: H, tftppkt: seq<byte>, i: nat, r: H)
    requires h.port != [] && i < |h.transfers| && |tftppkt| >= 4 && Acknowledges(Rest1(h).(tftppkt := tftppkt), i)
    requires r.transfers == h.transfers[i := Acked(h.transfers[i])]
    ensures OnlyAt(h, r, i)
  {
    hide GetOpcode, GetBlknum, InBounds, Chunk;
  }

  // ---------------------------------------------------------------------------------------
  // The handler goes on
  // ---------------------------------------------------------------------------------------

  lemma ActiveRuns(h: H, net: Net)
    requires PtrOk(h) && h.port != [] && KindOf(h.port[0]) == Active && !Handle(h, net).trapped && h.running
    ensures Handle(h, net).running && (Handle(h, net).timer == Fired ==> h.timer == Fired)
  {
    hide PtrOk, DoSendNextBuffer, DoContinueBuffer, DoBufferFinished;
    HeadPoints(h);
    ActiveIs(h, net);
    ActiveBodyRuns(Rest1(h), h.port[0].ftx, net);
  }

  lemma ActiveBodyRuns(h: H, i: nat, net: Net)
    requires i < |h.transfers| && h.running
    ensures var r := DoSendNextBuffer(h, i, net); !r.trapped ==> r.running && (r.timer == Fired ==> h.timer == Fired)
    ensures var r := DoContinueBuffer(h, i, net); !r.trapped ==> r.running && (r.timer == Fired ==> h.timer == Fired)
    ensures var r := DoBufferFinished(h, i); !r.trapped ==> r.running && (r.timer == Fired ==> h.timer == Fired)
  {
    hide PtrOk, HasInternal, Chunk, InBounds, Fail, SendChunk;
    var h1 := h.(local := Some(i));
    var t := h.transfers[i];
    if t.buffers != [] {
      ChunkRuns(h1, i, net);
      ChunkRuns(SetFtx(h1, i, Advanced(t)), i, net);
    }
  }

  lemma ChunkRuns(h: H, i: nat, net: Net)
    requires i < |h.transfers| && h.transfers[i].buffers != []
    ensures SendChunk(h, i, net).running == h.running || SendChunk(h, i, net).trapped
    ensures SendChunk(h, i, net).timer == Fired ==> h.timer == Fired
  {
    hide Chunk, InBounds, Send;
    var t := h.transfers[i];
    if InBounds(t.buffers[0]) {
      var h1 := SetFtx(h, i, t.(blknum := (t.blknum + 1) % TWO32)).(ioType := WriteReturn);
      SendRuns(h1, i, Data((t.blknum + 1) % TWO32 % 0x10000, Chunk(t.buffers[0])), DataSent, net);
    }
  }

  lemma SendRuns(h: H, i: nat, p: Packet, next: FileState, net: Net)
    requires i < |h.transfers|
    ensures Send(h, i, p, next, net).running == h.running
    ensures Send(h, i, p, next, net).timer == Fired ==> h.timer == Fired
  {
    hide Fail;
    FailRuns(h, i, SendError(net));
  }

  lemma OtherRuns(h: H, net: Net)
    requires PtrOk(h) && h.port != [] && (KindOf(h.port[0]) == Client || KindOf(h.port[0]) == Wake) && h.running
    requires h.port[0] != Die
    ensures Handle(h, net).running && (Handle(h, net).timer == Fired ==> h.timer == Fired)
  {
    hide PtrOk, HasInternal, FreshBuf, Min, Unacked, DoSendNextFile;
    PickRuns(Rest1(h), net);
  }

  lemma PickRuns(h: H, net: Net)
    ensures DoSendNextFile(h, net).running == h.running && (DoSendNextFile(h, net).timer == Fired ==> h.timer == Fired)
  {
    hide Send, NextReady;
    if !h.busy && NextReady(h.transfers, 0).Some? {
      var i := NextReady(h.transfers, 0).value;
      var h1 := h.(busy := true, local := Some(i), ioType := WriteReturn, ioArg := Some(i), started := h.started + [i]);
      SendRuns(h1, i, Wrq(h.transfers[i].name), WrqSent, net);
    }
  }

  lemma WriteRuns(h: H, net: Net)
    requires PtrOk(h) && h.port != [] && h.port[0] == SerialReply && h.serial.Replied? && h.ioType == WriteReturn
    requires h.running && h.ioArg.Some?
    ensures Handle(h, net).running && (Handle(h, net).timer == Fired ==> h.timer == Fired)
  {
    hide PtrOk, Without, Fail, Kept;
    ArgPoints(h);
    var h1 := StopTimer(Rest1(h)).(serial := Idle);
    var i := h.ioArg.value;
    FailRuns(h1, i, h.serial.status);
    if h.serial.status > 0 {
      FailRuns(Fail(h1, i, h.serial.status).(ioType := ReadReturn), i, ERROR_NO_FREE_STORE);
    } else {
      FailRuns(h1.(ioType := ReadReturn), i, ERROR_NO_FREE_STORE);
    }
  }

  lemma FailRuns(h: H, i: nat, error: nat)
    requires i < |h.transfers|
    ensures Fail(h, i, error).running == h.running && |Fail(h, i, error).transfers| == |h.transfers|
    ensures Fail(h, i, error).timer == h.timer
  {
    hide HasInternal;
  }

  lemma AckedRuns(h: H, i: nat)
    requires i < |h.transfers| && !DoAcked(h, i).trapped
    ensures DoAcked(h, i).running == h.running && DoAcked(h, i).timer == h.timer
  {
    hide HasInternal, Chunk, InBounds;
  }

  lemma ReplyRuns(h: H, i: nat)
    requires i < |h.transfers| && |h.tftppkt| >= 4 && Sent(h.transfers[i]) && !DoReply(h, i).trapped
    ensures DoReply(h, i).running == h.running && DoReply(h, i).timer == h.timer
  {
    hide Fail, DoAcked, HasInternal, GetOpcode, GetBlknum;
    FailRuns(h, i, ERROR_TFTP_GENERIC_ERROR);
    FailRuns(h, i, ERROR_TFTP_UNKNOWN_OPCODE);
    FailRuns(h, i, ERROR_TFTP_WRONG_BLOCK_NUM);
    if !DoAcked(h, i).trapped {
      AckedRuns(h, i);
    }
  }

  lemma ReadRuns(h: H, ph: Phase, net: Net)
    requires PtrOk(h) && h.port != [] && Inv(h, ph) && h.port[0] == SerialReply && h.ioType == ReadReturn && h.running
    requires h.serial.Replied? && h.serial.status == 0 && h.serial.reply.Payload? && net.mem
    requires !Handle(h, net).trapped
    ensures Handle(h, net).running && (Handle(h, net).timer == Fired ==> h.timer == Fired)
  {
    hide Inv, PtrOk, Without, Fail, Overlay, DoReply, XferOk;
    ArgPoints(h);
    TakeSerial(h, ph);
    InvActive(h, ph);
    XferSent(h.transfers[h.ioArg.value], ph);
    ReadsData(h, net);
    ReplyRuns(StopTimer(Rest1(h)).(serial := Idle, tftppkt := Overlay(h.tftppkt, h.serial.reply.bytes)), h.ioArg.value);
  }

  // ---------------------------------------------------------------------------------------
  // Every event of such a run keeps it smooth
  // ---------------------------------------------------------------------------------------

  /** No file is started and none fails. */
  predicate NoNews(a: seq<Ftx>, b: seq<Ftx>) {
    forall j :: 0 <= j < |b| ==>
      && (b[j].state == Error ==> j < |a| && a[j].state == Error && b[j].writes == a[j].writes)
      && (!Waiting(b[j]) ==> j < |a| && !Waiting(a[j]))
  }

  lemma NoNewsKeeps(sessions: seq<Session>, owners: seq<nat>, a: seq<Ftx>, b: seq<Ftx>, clean: set<nat>)
    requires NoNews(a, b) && AllClean(a, clean) && ErrorsExcused(sessions, owners, a)
    ensures AllClean(b, clean) && ErrorsExcused(sessions, owners, b)
  {
    hide Excused;
  }

  lemma OtherNews(h: H, ph: Phase, net: Net)
    requires PtrOk(h) && h.port != [] && Inv(h, ph) && Starts(h) == None && net.mem
    requires (KindOf(h.port[0]) == Client && h.port[0] != Die) || KindOf(h.port[0]) == Wake
    ensures NoNews(h.transfers, Handle(h, net).transfers) && Handle(h, net).serial == h.serial
  {
    hide Inv, PtrOk, Handle, NoNews;
    HeadPoints(h);
    HeadFacts(h, ph);
    if KindOf(h.port[0]) == Wake {
      WakeNews(h, net);
    } else {
      ClientNews(h, net);
    }
  }

  lemma WakeNews(h: H, net: Net)
    requires PtrOk(h) && h.port != [] && KindOf(h.port[0]) == Wake && Starts(h) == None
    ensures NoNews(h.transfers, Handle(h, net).transfers) && Handle(h, net).serial == h.serial
  {
    hide PtrOk, DoFileDone, DoSendNextFile, NoNews, NextReady;
    HeadPoints(h);
    if h.port[0] == SendNextFile {
      NothingPicked(Rest1(h), net);
      NoNewsAtAll(h.transfers);
    } else {
      DoneNews(Rest1(h), h.port[0].ftx);
    }
  }

  lemma NothingPicked(h: H, net: Net)
    requires h.busy || NextReady(h.transfers, 0) == None
    ensures DoSendNextFile(h, net).transfers == h.transfers && DoSendNextFile(h, net).serial == h.serial
  {
    hide Send, NextReady;
  }

  lemma DoneNews(h: H, i: nat)
    requires i < |h.transfers|
    ensures NoNews(h.transfers, DoFileDone(h, i).transfers) && DoFileDone(h, i).serial == h.serial
  {
    hide Unacked, HasInternal, NoNews;
    var t := h.transfers[i];
    SameStateNews(h.transfers, i, t.(buffers := [], dropped := t.dropped + Unacked(t.buffers)));
  }

  lemma SameStateNews(a: seq<Ftx>, i: nat, t: Ftx)
    requires i < |a| && t.state == a[i].state && t.writes == a[i].writes
    ensures NoNews(a, a[i := t])
  {
  }

  lemma ClientNews(h: H, net: Net)
    requires PtrOk(h) && h.port != [] && KindOf(h.port[0]) == Client && h.port[0] != Die && net.mem
    requires ClientsOk([h.port[0]] + Of(h.port[1..], Client), h.transfers)
    requires h.port[0].Write? ==> h.port[0].ftx < |h.transfers| && h.transfers[h.port[0].ftx].state == Queued
    ensures NoNews(h.transfers, Handle(h, net).transfers) && Handle(h, net).serial == h.serial
  {
    hide PtrOk, HasInternal, FreshBuf, NewFtx, ClientsOk, NoNews, Waiting;
    HeadPoints(h);
    match h.port[0]
    case FindOutput(name) =>
      NewIsOpen(name);
      NewsAtEnd(h.transfers, NewFtx(name));
    case Write(i, bytes) =>
      NewsAt(h.transfers, i, Handle(h, net).transfers[i]);
    case End(i) =>
      EndHead(h, i);
      NewsAt(h.transfers, i, h.transfers[i].(state := Ready));
    case Other => NoNewsAtAll(h.transfers);
  }

  lemma NewIsOpen(name: CString)
    ensures Waiting(NewFtx(name))
  {
  }

  lemma NewsAtEnd(a: seq<Ftx>, t: Ftx)
    requires Waiting(t)
    ensures NoNews(a, a + [t])
  {
  }

  lemma NewsAt(a: seq<Ftx>, i: nat, t: Ftx)
    requires i < |a| && Waiting(a[i]) && Waiting(t)
    ensures NoNews(a, a[i := t])
  {
  }

  lemma NoNewsAtAll(a: seq<Ftx>)
    ensures NoNews(a, a)
  {
  }

  lemma RequestAlwaysFits(h: H, net: Net)
    requires PtrOk(h) && h.port != [] && Starts(h).Some? && FitsTold(h, net) && net.mem
    ensures SendError(net) == 0
  {
    hide PtrOk, Fits, TftpBytes;
    RequestFits(h.transfers[Starts(h).value].name);
  }

  lemma PickEffect(h: H, net: Net)
    requires PtrOk(h) && h.port != [] && Starts(h).Some? && SendError(net) == 0
    ensures var i := Starts(h).value;
            && i < |h.transfers| && Handle(h, net).transfers == h.transfers[i := h.transfers[i].(state := WrqSent)]
            && !Handle(h, net).serial.Replied? && Handle(h, net).running == h.running && Handle(h, net).timer == Running
  {
    hide PtrOk;
  }

  lemma PickKeeps(sessions: seq<Session>, owners: seq<nat>, a: seq<Ftx>, clean: set<nat>, i: nat)
    requires AllClean(a, clean) && ErrorsExcused(sessions, owners, a) && i < |a|
    ensures AllClean(a[i := a[i].(state := WrqSent)], clean + {i})
    ensures ErrorsExcused(sessions, owners, a[i := a[i].(state := WrqSent)])
  {
    hide Excused;
  }

  /** The packet an active message is about to send is that of the next payload. */
  lemma ChunkTold(h: H, ph: Phase, net: Net)
    requires PtrOk(h) && h.port != [] && Inv(h, ph) && KindOf(h.port[0]) == Active && FitsTold(h, net) && net.mem
    requires NextPhase(h, ph, net) == Rest && !Finishing(h)
    ensures h.ioArg.Some? && h.ioArg.value < |h.transfers| && !Fitting(h.transfers[h.ioArg.value].writes)
  {
    hide Inv, Up, PtrOk, Fits, TftpBytes, Fitting, XferOk, RestOk, InBounds, Chunk, OnLine;
    HeadPoints(h);
    TakeToken(h, ph);
    InvActive(h, ph);
    var t := h.transfers[h.ioArg.value];
    if ph == Next {
      FirstChunkOk(t, 0);
      FirstTold(t);
      NextUnfit(SentChunk(t));
    } else if ph == Cont {
      ContHead(t);
      NextChunkOk(t, 0);
      NextTold(t);
      NextUnfit(SentChunk(Advanced(t)));
    }
  }

  lemma FirstTold(t: Ftx)
    requires t.buffers != [] && InBounds(t.buffers[0]) && (t.blknum + 1) % TWO32 == t.blknum + 1
    ensures OutgoingChunk(t, 0) == Some(OnLine(SentChunk(t), DataOut))
  {
    assert t.buffers[0].(curpos := t.buffers[0].curpos + 0) == t.buffers[0];
  }

  lemma ContHead(t: Ftx)
    requires XferOk(t, Cont)
    ensures t.buffers != []
  {
  }

  lemma NextTold(t: Ftx)
    requires t.buffers != [] && InBounds(Advanced(t).buffers[0]) && (t.blknum + 1) % TWO32 == t.blknum + 1
    ensures OutgoingChunk(t, TFTP_MAX_DATA_SIZE) == Some(OnLine(SentChunk(Advanced(t)), DataOut))
  {
  }

  lemma SessionIsOk(s: Sys, i: nat)
    requires Books(s) && SessionFor(s.sessions, s.owners, i).Some?
    ensures SessionOk(SessionFor(s.sessions, s.owners, i).value)
  {
    assert OwnerOk(s.sessions[|s.sessions| - 1], s.owners[|s.owners| - 1], s.h.transfers);
  }

  lemma UnfitExcused(sessions: seq<Session>, owners: seq<nat>, i: nat, writes: seq<seq<byte>>)
    requires !Fitting(writes)
    ensures Excused(sessions, owners, i, writes)
  {
    hide Fitting, CleanShape;
  }

  lemma RefusedExcused(s: Sys, i: nat, writes: seq<seq<byte>>)
    requires |s.owners| == |s.sessions| && SessionFor(s.sessions, s.owners, i).Some? && !Sound(writes)
    requires Fitting(writes) ==> EndsEarly(SessionFor(s.sessions, s.owners, i).value.heard)
    ensures Excused(s.sessions, s.owners, i, writes)
  {
    hide Fitting, Sound, EndsEarly;
    var k := |s.owners| - 1;
    assert s.owners[k] == i;
  }

  /** What has arrived stays arrived. */
  lemma ServeHears(sessions: seq<Session>, p: Packet, k: nat)
    requires k < |sessions|
    ensures k < |Serve(sessions, p)| && sessions[k].heard <= Serve(sessions, p)[k].heard
  {
    hide Server.Accepts;
  }

  lemma LongerCut(a: seq<Packet>, b: seq<Packet>)
    requires a <= b && EndsEarly(a)
    ensures EndsEarly(b)
  {
    var k :| 0 <= k < |a| - 1 && a[k].Data? && |a[k].bytes| < BLOCK_SIZE;
    assert b[k] == a[k];
  }

  lemma ServeRefuses(sessions: seq<Session>, owners: seq<nat>, more: seq<nat>, p: Packet, i: nat)
    requires Refused(sessions, owners, i) && owners <= more
    ensures Refused(Serve(sessions, p), more, i)
  {
    hide EndsEarly, Serve;
    var k :| 0 <= k < |owners| && k < |sessions| && owners[k] == i && EndsEarly(sessions[k].heard);
    ServeHears(sessions, p, k);
    LongerCut(sessions[k].heard, Serve(sessions, p)[k].heard);
    assert more[k] == i;
  }

  lemma ServeExcuses(sessions: seq<Session>, owners: seq<nat>, more: seq<nat>, p: Packet, ts: seq<Ftx>)
    requires ErrorsExcused(sessions, owners, ts) && owners <= more
    ensures ErrorsExcused(Serve(sessions, p), more, ts)
  {
    hide Serve, Refused, Sound, Fitting;
    forall i | 0 <= i < |ts| && ts[i].state == Error
      ensures Excused(Serve(sessions, p), more, i, ts[i].writes)
    {
      assert Excused(sessions, owners, i, ts[i].writes);
      if Fitting(ts[i].writes) {
        ServeRefuses(sessions, owners, more, p, i);
      }
    }
  }

  lemma ArrivalExcuses(s: Sys)
    requires Allowed(s, WriteEnds) && ErrorsExcused(s.sessions, s.owners, s.h.transfers)
    ensures var r := Next1(s, WriteEnds); ErrorsExcused(r.sessions, r.owners, r.h.transfers)
  {
    hide ErrorsExcused, Arrived, Serve, Reply, PtrOk, Orderly;
    match Arrived(s.h)
    case None =>
    case Some(p) => ServeExcuses(s.sessions, s.owners, Next1(s, WriteEnds).owners, p, s.h.transfers);
  }

  /** A transfer that has lost the link in a pass, or the one that has it still. */
  lemma SmoothActive(s: Sys, ph: Phase, net: Net)
    requires Smooth(s, ph) && FaultFree(s, Pass(net)) && KindOf(s.h.port[0]) == Active
    requires SysInv(s.(h := Handle(s.h, net)), NextPhase(s.h, ph, net))
    ensures Smooth(s.(h := Handle(s.h, net)), NextPhase(s.h, ph, net))
  {
    hide Inv, PtrOk, Handle, Books, Sound, Fitting, Excused, NextPhase, Orderly, OnlyLast, SessionFor;
    var h, r, next := s.h, Handle(s.h, net), NextPhase(s.h, ph, net);
    ActiveRuns(h, net);
    ActiveOnly(h, ph, net);
    TakenActive(h, ph);
    if next == Rest && !Finishing(h) {
      ChunkTold(h, ph, net);
      UnfitExcused(s.sessions, s.owners, h.ioArg.value, h.transfers[h.ioArg.value].writes);
    }
    if next != Rest {
      InvActive(r, next);
      ActivePass(h, ph, net);
    } else {
      RestSerial(r);
    }
    TouchOne(s.sessions, s.owners, h.transfers, r.transfers, s.clean, h.ioArg.value);
  }

  lemma RestSerial(h: H)
    requires Inv(h, Rest)
    ensures h.serial == Idle
  {
  }

  lemma TakenActive(h: H, ph: Phase)
    requires h.port != [] && Inv(h, ph) && KindOf(h.port[0]) == Active
    ensures ph != Rest && StageOf(h.serial) == Between
    ensures h.ioArg.Some? && h.ioArg.value < |h.transfers| && !Waiting(h.transfers[h.ioArg.value])
  {
    hide Inv, Up;
    TakeToken(h, ph);
    InvActive(h, ph);
  }

  lemma SmoothSerial(s: Sys, ph: Phase, net: Net)
    requires Smooth(s, ph) && FaultFree(s, Pass(net)) && s.h.port[0] == SerialReply
    requires SysInv(s.(h := Handle(s.h, net)), NextPhase(s.h, ph, net))
    ensures Smooth(s.(h := Handle(s.h, net)), NextPhase(s.h, ph, net))
  {
    hide Inv, Up, PtrOk, Handle, Books, Sound, Fitting, Excused, NextPhase, Orderly, OnlyLast, SessionFor, Expected,
         InStep, Follows;
    var h, r, next := s.h, Handle(s.h, net), NextPhase(s.h, ph, net);
    TakeSerial(h, ph);
    ReplyOp(h, ph);
    InvActive(h, ph);
    SerialOnly(h, ph, net);
    var i := h.ioArg.value;
    if h.ioType == WriteReturn {
      WriteRuns(h, net);
      WritePass(h, ph, net);
      WriteKeepsPhase(h, ph, net);
      InvActive(r, next);
    } else {
      ReadRuns(h, ph, net);
      if next != Rest {
        InvActive(r, next);
        ReadPass(h, ph, net);
      } else {
        RestSerial(r);
        SessionIsOk(s, i);
        ReadRefused(h, ph, net);
        var session := SessionFor(s.sessions, s.owners, i).value;
        RefusalExcused(session, s.line, h.transfers[i], ph, h.serial.reply.bytes, h.tftppkt);
        RefusedExcused(s, i, h.transfers[i].writes);
      }
    }
    TouchOne(s.sessions, s.owners, h.transfers, r.transfers, s.clean, i);
  }

  lemma WriteKeepsPhase(h: H, ph: Phase, net: Net)
    requires PtrOk(h) && h.port != [] && h.port[0] == SerialReply && h.ioType == WriteReturn && net.mem
    ensures NextPhase(h, ph, net) == ph
  {
  }

  lemma ReadRefused(h: H, ph: Phase, net: Net)
    requires PtrOk(h) && h.port != [] && h.port[0] == SerialReply && h.ioType == ReadReturn && net.mem
    requires h.ioArg.Some? && h.ioArg.value < |h.transfers|
    requires h.serial.Replied? && h.serial.status == 0 && h.serial.reply.Payload? && NextPhase(h, ph, net) == Rest
    ensures |h.tftppkt| >= 4 && AfterReply(h.transfers[h.ioArg.value], Overlay(h.tftppkt, h.serial.reply.bytes)) == Rest
  {
    hide AfterReply, Overlay;
    ArgPoints(h);
  }

  lemma SmoothPass(s: Sys, ph: Phase, net: Net)
    requires Smooth(s, ph) && FaultFree(s, Pass(net))
    requires SysInv(Next1(s, Pass(net)), NextPhase(s.h, ph, net))
    ensures Smooth(Next1(s, Pass(net)), NextPhase(s.h, ph, net))
  {
    hide Inv, PtrOk, Handle, Books, ActiveOk, AllClean, ErrorsExcused, NextPhase, Orderly, FitsTold;
    var h, next := s.h, NextPhase(s.h, ph, net);
    if Starts(h).Some? {
      RequestAlwaysFits(h, net);
      PickEffect(h, net);
      PickKeeps(s.sessions, s.owners, h.transfers, s.clean, Starts(h).value);
      StartsFromRest(h, ph, net);
    } else if KindOf(h.port[0]) == Active {
      SmoothActive(s, ph, net);
    } else if h.port[0] == SerialReply {
      SmoothSerial(s, ph, net);
    } else if h.port[0] == TimerReply {
      NoTimer(h, ph);
    } else {
      OtherNews(h, ph, net);
      OtherRuns(h, net);
      QuietPhase(h, ph, net);
      NoNewsKeeps(s.sessions, s.owners, h.transfers, Handle(h, net).transfers, s.clean);
    }
  }

  lemma NoTimer(h: H, ph: Phase)
    requires h.port != [] && Inv(h, ph) && h.timer != Fired
    ensures h.port[0] != TimerReply
  {
    hide XferOk, RestOk, QueueOk;
    OfMembers(h.port, Timer);
  }

  lemma StartsFromRest(h: H, ph: Phase, net: Net)
    requires PtrOk(h) && h.port != [] && Inv(h, ph) && Starts(h).Some? && SendError(net) == 0
    ensures ph == Rest && NextPhase(h, ph, net) == WrqOut
  {
    hide XferOk, RestOk, Signals, QueueOk;
  }

  lemma SmoothStep(s: Sys, ph: Phase, ev: Event)
    requires Smooth(s, ph) && FaultFree(s, ev)
    ensures Smooth(Next1(s, ev), PhaseNext(s, ph, ev))
  {
    hide Inv, PtrOk, Handle, Books, ActiveOk, AllClean, ErrorsExcused, NextPhase, Orderly, Extract, Image, ImageSize,
         Arrived;
    SysStep(s, ph, ev);
    match ev
    case Pass(net) => SmoothPass(s, ph, net);
    case WriteEnds => PendingActive(s.h, ph); ArrivalExcuses(s);
    case ReadEnds(_, _) => PendingActive(s.h, ph);
    case ClientMsg(_) =>
  }

  lemma PendingActive(h: H, ph: Phase)
    requires Inv(h, ph) && h.serial.Pending?
    ensures ph != Rest
  {
  }

  ghost predicate FaultFreeRun(s: Sys, events: seq<Event>)
    decreases |events|
  {
    events == [] || (FaultFree(s, events[0]) && FaultFreeRun(Next1(s, events[0]), events[1..]))
  }

  lemma {:induction false} FaultFreeAllowed(s: Sys, events: seq<Event>)
    requires FaultFreeRun(s, events)
    ensures AllowedRun(s, events)
    decreases |events|
  {
    hide Next1, Allowed;
    if events != [] {
      FaultFreeAllowed(Next1(s, events[0]), events[1..]);
    }
  }

  lemma {:induction false} SmoothRun(s: Sys, ph: Phase, events: seq<Event>) returns (last: Phase)
    requires Smooth(s, ph) && FaultFreeRun(s, events) && AllowedRun(s, events)
    ensures Smooth(AfterRun(s, events), last)
    decreases |events|
  {
    hide Smooth, FaultFree, Next1, PhaseNext;
    last := ph;
    if events != [] {
      SmoothStep(s, ph, events[0]);
      last := SmoothRun(Next1(s, events[0]), PhaseNext(s, ph, events[0]), events[1..]);
    }
  }

  /** Transfer i is finished, and the server saw its normal termination. */
  predicate EndedNormally(s: Sys, i: nat) {
    && i < |s.h.transfers| && s.h.transfers[i].state == Finished
    && exists k :: 0 <= k < |s.owners| && k < |s.sessions| && s.owners[k] == i && s.sessions[k].done
  }

  /** These are the DATA packets that have arrived for transfer i. */
  predicate SentAs(s: Sys, i: nat, packets: seq<Packet>) {
    exists k :: 0 <= k < |s.owners| && k < |s.sessions| && s.owners[k] == i && s.sessions[k].heard == packets
  }

  /** A session that holds all payloads of a file is done exactly for clean shapes. */
  lemma DoneExact(ses: Session, writes: seq<seq<byte>>)
    requires SessionOk(ses) && ses.got == Payloads(writes)
    ensures ses.done <==> CleanShape(writes)
  {
    hide Payloads, CleanShape;
    ShapeExact(writes);
  }

  /** In every reachable state of a run without faults the handler is running, and a transfer that has
      ended, of at most 65535 blocks that all fit their frames, has finished with the server seeing
      normal termination exactly if the buffers clients have written to it have a clean shape; this is
      exactly when the DATA packets it was sent in are those the lock-step client sends for the whole file. */
  lemma CleanEnd(s: Sys, events: seq<Event>, i: nat)
    requires InitialSys(s) && FaultFreeRun(s, events) && AllowedRun(s, events)
    requires i < |AfterRun(s, events).h.transfers|
    requires var t := AfterRun(s, events).h.transfers[i]; t.state == Finished || t.state == Error
    requires Fitting(Given(s, events, i))
    ensures AfterRun(s, events).h.running
    ensures var r, writes := AfterRun(s, events), Given(s, events, i);
            && (EndedNormally(r, i) <==> CleanShape(writes))
            && (EndedNormally(r, i) <==> SentAs(r, i, Numbered(FileChunks(Flatten(writes)))))
  {
    hide AfterRun, Payloads, CleanShape, FramesFit, Inv, ActiveOk, SessionOk, FileChunks, Flatten, Numbered;
    hide Given, Told, PathsIn, NameOf;
    GivenIs(s, events);
    InitSmooth(s);
    var last := SmoothRun(s, Rest, events);
    var r := AfterRun(s, events);
    var t := r.h.transfers[i];
    SameAsLockStep(t.writes);
    if t.state == Finished {
      var k := FinishedIsStored(s, events, i);
      assert OwnerOk(r.sessions[k], r.owners[k], r.h.transfers);
      DoneExact(r.sessions[k], t.writes);
      OneSession(r, i, k);
      NumberedInjective(Payloads(t.writes), FileChunks(Flatten(t.writes)));
      AtRest(r.h, last, i);
    } else {
      RefusedDiffers(r, i, Flatten(t.writes));
    }
  }

  /** The lock-step client sends nothing after a short block. */
  lemma RefusedDiffers(s: Sys, i: nat, file: seq<byte>)
    requires Books(s) && Refused(s.sessions, s.owners, i)
    ensures !SentAs(s, i, Numbered(FileChunks(file)))
  {
    hide OwnerOk, AllStored, FileChunks, Numbered, EndsEarly;
    var k :| 0 <= k < |s.owners| && k < |s.sessions| && s.owners[k] == i && EndsEarly(s.sessions[k].heard);
    LockStepWhole(file);
  }

  lemma LockStepWhole(file: seq<byte>)
    ensures !EndsEarly(Numbered(FileChunks(file)))
  {
    hide FileChunks;
    FileChunksEnd(file);
    var p := FileChunks(file);
    forall k | 0 <= k < |Numbered(p)| - 1
      ensures |Numbered(p)[k].bytes| == BLOCK_SIZE
    {
      assert Full(p[k]);
    }
  }

  lemma OneSession(s: Sys, i: nat, k: nat)
    requires Books(s) && k < |s.owners| && s.owners[k] == i && i < |s.h.transfers| && s.h.transfers[i].state == Finished
    ensures EndedNormally(s, i) <==> s.sessions[k].done
    ensures forall packets :: SentAs(s, i, packets) <==> s.sessions[k].heard == packets
  {
    hide OwnerOk, AllStored;
  }

  lemma InitSmooth(s: Sys)
    requires InitialSys(s)
    ensures Smooth(s, Rest)
  {
    InitSysInv(s);
  }

  // ---------------------------------------------------------------------------------------
  // Short replies can always be read
  // ---------------------------------------------------------------------------------------

  function Zeros(n: nat): seq<byte> {
    seq(n, i => 0)
  }

  lemma {:induction false} PlainBytes(s: seq<byte>)
    requires forall k :: 0 <= k < |s| ==> s[k] < 0xC0
    ensures Slip.Specials(s) == 0
  {
    if s != [] {
      PlainBytes(s[1..]);
    }
  }

  /** The event by which the oldest reply is read: headers of zeros, and zeros behind the frame. */
  const PLAIN_READ: Event := ReadEnds(Zeros(HDR_LEN), Zeros(64))

  lemma {:induction false} ZerosDecode(s: seq<byte>, n: nat)
    requires 2 * n <= |s| && forall k :: 0 <= k < |s| ==> s[k] == 0
    ensures Slip.Decode(s, n).ok
  {
    if n > 0 {
      ZerosDecode(s[1..], n - 1);
    }
  }

  lemma ShortImage(reply: seq<byte>)
    requires |reply| <= 5
    ensures var frame := Slip.Frame(Zeros(HDR_LEN) + reply);
            IsImage(frame + Zeros(64), |frame|, reply, Zeros(HDR_LEN), Zeros(64))
  {
    hide Slip.Encode;
    PlainBytes(Zeros(HDR_LEN));
    Slip.SpecialsConcat(Zeros(HDR_LEN), reply);
    Slip.EncodeLength(Zeros(HDR_LEN) + reply);
  }

  /** However many bytes of it need an escape. */
  lemma ReplyImage(s: Sys) returns (rest: seq<byte>)
    requires s.line != [] && |s.line[0]| <= 5
    ensures Readable1(s, PLAIN_READ)
    ensures Extract(Image(s, PLAIN_READ), ImageSize(s, PLAIN_READ)) == Payload(s.line[0] + rest)
  {
    hide Slip.Frame, IsImage, Extract, Slip.Decode, Slip.Specials;
    var headers, reply, tail := Zeros(HDR_LEN), s.line[0], Zeros(64);
    ShortImage(reply);
    ReplyExtracted(Image(s, PLAIN_READ), ImageSize(s, PLAIN_READ), reply, headers, tail);
    var k := Slip.Specials(headers + reply);
    ZerosDecode(tail, k);
    rest := [Slip.END] + Slip.Decode(tail, k).out;
    assert reply + rest == reply + [Slip.END] + Slip.Decode(tail, k).out;
  }
}

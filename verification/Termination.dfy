/** How many messages the handler needs for one file, when nothing disturbs it and the server always
    acknowledges. */
module Termination {
  import opened Bytes
  import opened Messages
  import opened Packets
  import opened Engine
  import opened Files
  import opened Ownership
  import opened Server
  import opened Delivery
  import opened CleanEnd

  // ---------------------------------------------------------------------------------------
  // The rank
  // ---------------------------------------------------------------------------------------

  /** The number of payloads a rest of n bytes is sent in. */
  function Blocks(n: int): nat {
    if n <= 0 then 1 else (n + TFTP_MAX_DATA_SIZE - 1) / TFTP_MAX_DATA_SIZE
  }

  /** Messages handled for a list of buffers: three for each block, one for each buffer. */
  function Cost(writes: seq<seq<byte>>): nat {
    if writes == [] then 0 else 3 * Blocks(|writes[0]|) + 1 + Cost(writes[1..])
  }

  /** Messages still to be handled until the file is finished: the request, its completion, that of
      its reply, and the message that finds no buffer left make four. */
  function Rank(t: Ftx, ph: Phase, reading: bool): nat {
    var io := if reading then 0 else 1;
    var later := if t.buffers == [] then 0 else Cost(BytesOf(t.buffers[1..]));
    var left := if t.buffers == [] then 0 else t.buffers[0].left;
    match ph
    case Rest => 4 + Cost(BytesOf(t.buffers))
    case WrqOut => 2 + io + Cost(BytesOf(t.buffers))
    case Next => 1 + Cost(BytesOf(t.buffers))
    case DataOut => 3 * Blocks(left) + io + later
    case Cont => 3 * Blocks(left) + 2 + later
    case BufDone => 2 + later
  }

  predicate Reading(h: H) {
    h.serial != Idle && h.serial.op == OpRead
  }

  function RankOf(h: H, i: nat, ph: Phase): nat
    requires i < |h.transfers|
  {
    Rank(h.transfers[i], ph, Reading(h))
  }

  /** Each payload costs the same, so the rank counts payloads. */
  lemma {:induction false} BlocksOfChunks(s: seq<byte>)
    ensures |Chunks(s)| == Blocks(|s|)
  {
    if |s| > TFTP_MAX_DATA_SIZE {
      BlocksOfChunks(s[TFTP_MAX_DATA_SIZE..]);
    }
  }

  lemma {:induction false} CostOfPayloads(writes: seq<seq<byte>>)
    ensures Cost(writes) == 3 * |Payloads(writes)| + |writes|
  {
    if writes != [] {
      BlocksOfChunks(writes[0]);
      CostOfPayloads(writes[1..]);
    }
  }

  // ---------------------------------------------------------------------------------------
  // The run of one file
  // ---------------------------------------------------------------------------------------

  /** What the server sends, for the block in flight; for a write request any number will do. */
  predicate Agrees(t: Ftx, reply: Extracted) {
    && reply.Payload? && |reply.bytes| >= 4 && GetOpcode(reply.bytes) == OP_ACK
    && (t.state == DataSent ==> GetBlknum(reply.bytes) == Wire(t.blknum))
  }

  /** The message that is queued, if any, while file i is alone with the handler. */
  function Queue(h: H, i: nat, ph: Phase): seq<Msg<nat>> {
    match ph
    case Rest => [SendNextFile]
    case WrqOut => if h.serial.Replied? then [SerialReply] else []
    case DataOut => if h.serial.Replied? then [SerialReply] else []
    case _ => Token(ph, i)
  }

  predicate IoFor(h: H, i: nat, ph: Phase)
    requires i < |h.transfers|
  {
    && (h.serial != Idle <==> ph == WrqOut || ph == DataOut)
    && (h.serial != Idle ==> h.ioType == if h.serial.op == OpRead then ReadReturn else WriteReturn)
    && (h.serial.Replied? ==> h.serial.status == 0)
    && (h.serial.Replied? && h.serial.op == OpRead ==> Agrees(h.transfers[i], h.serial.reply))
  }

  /** File i is the only thing the handler is concerned with, and is under way. */
  predicate Alone(h: H, i: nat, ph: Phase) {
    && h.running && PtrOk(h) && i < |h.transfers| && h.port == Queue(h, i, ph) && IoFor(h, i, ph)
    && if ph == Rest then JustClosed(h, i) else h.ioArg == Some(i) && h.local == Some(i) && XferOk(h.transfers[i], ph)
  }

  /** The state ACTION_END leaves when nothing else is going on. */
  predicate JustClosed(h: H, i: nat) {
    && h.running && PtrOk(h) && !h.busy && h.port == [SendNextFile] && h.serial == Idle
    && NextReady(h.transfers, 0) == Some(i) && Untouched(h.transfers[i])
  }

  predicate Ended(t: Ftx) {
    t.state == Finished || t.state == Error
  }

  /** The next thing that happens to file i, as long as it has not ended. */
  predicate Serving(h: H, i: nat, mv: Move)
    requires PtrOk(h) && i < |h.transfers|
  {
    && Possible(h, mv) && !Ended(h.transfers[i])
    && match mv
       case Step(net) => net.mem && FitsTold(h, net)
       case WriteDone(status) => status == 0
       case ReadDone(status, reply) => status == 0 && Agrees(h.transfers[i], reply)
       case _ => false
  }

  ghost predicate ServedRun(h: H, i: nat, moves: seq<Move>)
    requires PtrOk(h)
    decreases |moves|
  {
    moves == [] || (i < |h.transfers| && Serving(h, i, moves[0]) && ServedRun(Apply(h, moves[0]), i, moves[1..]))
  }

  function Handled(moves: seq<Move>): nat {
    if moves == [] then 0 else (if moves[0].Step? then 1 else 0) + Handled(moves[1..])
  }

  // ---------------------------------------------------------------------------------------
  // Single passes
  // ---------------------------------------------------------------------------------------

  /** How file i, the only one to change, stands after a pass: further on, finished with every payload
      acknowledged, or failed since the block number does not fit into the acknowledgement. */
  predicate Advances(h: H, r: H, i: nat, ph: Phase, next: Phase)
    requires i < |h.transfers|
  {
    && OnlyAt(h, r, i)
    && if Ended(r.transfers[i]) then WellDone(r.transfers[i], RankOf(h, i, ph)) || Overrun(r.transfers[i])
       else
         && Alone(r, i, next) && RankOf(r, i, next) == RankOf(h, i, ph) - 1
         && r.transfers[i].acked == AckedBy(h, i, ph)
         && !r.serial.Replied? && (r.serial.Pending? ==> (r.serial.op == OpRead <==> h.serial.Replied?))
  }

  /** The payloads acknowledged after a pass. */
  function AckedBy(h: H, i: nat, ph: Phase): seq<seq<byte>>
    requires i < |h.transfers|
  {
    var t := h.transfers[i];
    if ph == DataOut && Reading(h) then t.acked + [ChunkOf(t)] else t.acked
  }

  predicate WellDone(t: Ftx, rank: nat) {
    t.state == Finished && rank == 1 && t.acked == Payloads(t.writes) && |t.acked| <= MAX_BLOCKS
  }

  predicate Overrun(t: Ftx) {
    && t.state == Error && t.error == ERROR_TFTP_WRONG_BLOCK_NUM
    && t.blknum == MAX_BLOCKS + 1 && |t.acked| == MAX_BLOCKS && |Payloads(t.writes)| > MAX_BLOCKS
  }

  lemma PickFits(h: H, i: nat, net: Net)
    requires Alone(h, i, Rest) && net.mem && FitsTold(h, net)
    ensures SendError(net) == 0
  {
    hide Fits, TftpBytes, IoFor;
    RequestFits(h.transfers[i].name);
  }

  lemma PickAlone(h: H, i: nat, net: Net)
    requires Alone(h, i, Rest) && SendError(net) == 0
    ensures var r := Handle(h, net);
            && r.transfers == h.transfers[i := h.transfers[i].(state := WrqSent)] && PtrOk(r) && r.running
            && r.port == [] && r.serial == Pending(OpWrite(Wrq(h.transfers[i].name)))
            && r.ioType == WriteReturn && r.ioArg == Some(i) && r.local == Some(i)
  {
    hide HasInternal, PtrOk, Fail, NextReady;
    assert h.port[1..] == [];
  }

  /** The state is as before but for the port, the two requests, and the record of file i. */
  predicate Onward(h: H, r: H, i: nat, t: Ftx, port: seq<Msg<nat>>) {
    && r.running && PtrOk(r) && i < |h.transfers| && r.transfers == h.transfers[i := t] && r.port == port
    && r.ioArg == Some(i) && r.local == Some(i)
  }

  lemma WriteAlone(h: H, i: nat, ph: Phase, net: Net)
    requires Alone(h, i, ph) && h.serial.Replied? && h.serial.op.OpWrite? && net.mem
    ensures var r := Handle(h, net);
            Onward(h, r, i, h.transfers[i], []) && r.serial == Pending(OpRead) && r.ioType == ReadReturn
  {
    hide XferOk, HasInternal, Fail, PtrOk;
    assert h.port[1..] == [];
    assert h.transfers[i := h.transfers[i]] == h.transfers;
  }

  lemma AnswerShows(h: H, i: nat, reply: seq<byte>, tftppkt: seq<byte>)
    requires i < |h.transfers| && Agrees(h.transfers[i], Payload(reply)) && |tftppkt| >= 4
    ensures GetOpcode(Overlay(tftppkt, reply)) == OP_ACK
    ensures h.transfers[i].state == DataSent ==> GetBlknum(Overlay(tftppkt, reply)) == Wire(h.transfers[i].blknum)
  {
    hide Wire;
    assert Overlay(tftppkt, reply)[..4] == reply[..4];
    FieldsOfFront(Overlay(tftppkt, reply), reply);
  }

  lemma FieldsOfFront(a: seq<byte>, b: seq<byte>)
    requires |a| >= 4 && |b| >= 4 && a[..4] == b[..4]
    ensures GetOpcode(a) == GetOpcode(b) && GetBlknum(a) == GetBlknum(b)
  {
    assert a[..4][0] == a[0] && a[..4][1] == a[1] && a[..4][2] == a[2] && a[..4][3] == a[3];
  }

  /** A reply is handled up to the switch over the state of the file. */
  lemma ReadOpens(h: H, i: nat, ph: Phase, net: Net)
    requires Alone(h, i, ph) && h.serial.Replied? && h.serial.op == OpRead && net.mem
    ensures |h.tftppkt| >= 4 && h.serial.reply.Payload?
    ensures var tftppkt := Overlay(h.tftppkt, h.serial.reply.bytes);
            var h1 := h.(port := [], timer := Stopped, serial := Idle, tftppkt := tftppkt);
            Handle(h, net) == DoAck(h1, i, GetBlknum(h1.tftppkt)) && PtrOk(h1)
  {
    hide XferOk, HasInternal, Fail, DoAck, GetOpcode, GetBlknum, Overlay, Wire;
    assert h.port[1..] == [];
    AnswerShows(h, i, h.serial.reply.bytes, h.tftppkt);
  }

  lemma GrantAlone(h: H, i: nat, net: Net)
    requires Alone(h, i, WrqOut) && h.serial.Replied? && h.serial.op == OpRead && net.mem
    ensures var r := Handle(h, net); Onward(h, r, i, h.transfers[i], [SendNextBuffer(i)]) && r.serial == Idle
  {
    hide HasInternal, PtrOk, Handle, Overlay, GetBlknum;
    ReadOpens(h, i, WrqOut, net);
    assert h.transfers[i := h.transfers[i]] == h.transfers;
  }

  lemma AckAlone(h: H, i: nat, net: Net)
    requires Alone(h, i, DataOut) && h.serial.Replied? && h.serial.op == OpRead && net.mem
    requires h.transfers[i].blknum <= MAX_BLOCKS
    ensures var r, t := Handle(h, net), h.transfers[i];
            && t.buffers != [] && InBounds(t.buffers[0]) && r.serial == Idle
            && Onward(h, r, i, Acked(t),
                      [if t.buffers[0].left > TFTP_MAX_DATA_SIZE then ContinueBuffer(i) else BufferFinished(i)])
  {
    hide HasInternal, PtrOk, Handle, Overlay, GetBlknum, GetOpcode, Fail, Chunk, Unacked, Payloads;
    ReadOpens(h, i, DataOut, net);
    AnswerShows(h, i, h.serial.reply.bytes, h.tftppkt);
    AckOk(h.transfers[i]);
  }

  lemma OverrunAlone(h: H, i: nat, net: Net)
    requires Alone(h, i, DataOut) && h.serial.Replied? && h.serial.op == OpRead && net.mem
    requires h.transfers[i].blknum > MAX_BLOCKS
    ensures Handle(h, net).transfers ==
              h.transfers[i := h.transfers[i].(state := Error, error := ERROR_TFTP_WRONG_BLOCK_NUM)]
    ensures Overrun(h.transfers[i].(state := Error, error := ERROR_TFTP_WRONG_BLOCK_NUM))
  {
    hide HasInternal, PtrOk, Handle, Overlay, GetBlknum, GetOpcode, DoAcked, Chunk, Unacked, Payloads;
    ReadOpens(h, i, DataOut, net);
    AnswerShows(h, i, h.serial.reply.bytes, h.tftppkt);
    NextPayload(h.transfers[i]);
  }

  /** The payload about to be sent is one of the file, so its frame fits. */
  lemma PayloadFits(t: Ftx)
    requires XferOk(t, DataOut) && FramesFit(Payloads(t.writes))
    ensures t.buffers != [] && InBounds(t.buffers[0]) && Fits(TftpBytes(Data(t.blknum % 0x10000, Chunk(t.buffers[0]))))
  {
    hide Fits, TftpBytes, Payloads, XferOk, ChunkOf;
    NextPayload(t);
    var p := Payloads(t.writes);
    assert (t.acked + [ChunkOf(t)])[|t.acked|] == ChunkOf(t);
    assert p[|t.acked|] == ChunkOf(t);
  }

  lemma FirstAlone(h: H, i: nat, net: Net)
    requires Alone(h, i, Next) && h.transfers[i].buffers != [] && net.mem && FitsTold(h, net)
    requires FramesFit(Payloads(h.transfers[i].writes))
    ensures var r := Handle(h, net);
            && Onward(h, r, i, SentChunk(h.transfers[i]), []) && r.serial.Pending? && r.serial.op.OpWrite?
            && r.ioType == WriteReturn
  {
    hide HasInternal, PtrOk, Fits, TftpBytes, SendChunk, FramesFit, Payloads, Unacked, AllFresh, Chunk, InBounds;
    var t := h.transfers[i];
    assert h.port[1..] == [];
    FirstChunkOk(t, 0);
    FirstFits(t);
    assert t.buffers[0].(curpos := t.buffers[0].curpos + 0) == t.buffers[0];
    var h1 := h.(port := [], local := Some(i));
    assert h.transfers[i := t] == h.transfers;
    assert SetFtx(h1, i, t) == h1;
    ChunkSent(h1, i, t, net);
  }

  lemma FirstFits(t: Ftx)
    requires XferOk(t, Next) && t.buffers != [] && FramesFit(Payloads(t.writes))
    ensures InBounds(t.buffers[0]) && Fits(TftpBytes(ChunkPacket(t)))
  {
    hide Fits, TftpBytes, Payloads, Chunk, InBounds, XferOk, FramesFit;
    FirstChunkOk(t, 0);
    PayloadFits(SentChunk(t));
  }

  lemma NextFits(t: Ftx)
    requires XferOk(t, Cont) && FramesFit(Payloads(t.writes))
    ensures t.buffers != [] && InBounds(Advanced(t).buffers[0]) && Fits(TftpBytes(ChunkPacket(Advanced(t))))
  {
    hide Fits, TftpBytes, Payloads, Chunk, InBounds, XferOk, FramesFit;
    ContHead(t);
    NextChunkOk(t, 0);
    PayloadFits(SentChunk(Advanced(t)));
  }

  lemma ContAlone(h: H, i: nat, net: Net)
    requires Alone(h, i, Cont) && net.mem && FitsTold(h, net) && FramesFit(Payloads(h.transfers[i].writes))
    ensures var r := Handle(h, net);
            && h.transfers[i].buffers != []
            && Onward(h, r, i, SentChunk(Advanced(h.transfers[i])), []) && r.serial.Pending? && r.serial.op.OpWrite?
            && r.ioType == WriteReturn
  {
    hide HasInternal, PtrOk, Fits, TftpBytes, SendChunk, FramesFit, Payloads, Unacked, AllFresh, Chunk, InBounds;
    var t := h.transfers[i];
    assert h.port[1..] == [];
    NextChunkOk(t, 0);
    NextFits(t);
    ChunkSent(h.(port := [], local := Some(i)), i, Advanced(t), net);
  }

  lemma FinishAlone(h: H, i: nat, net: Net)
    requires Alone(h, i, Next) && h.transfers[i].buffers == []
    ensures Onward(h, Handle(h, net), i, h.transfers[i].(state := Finished), [FileFinished(i)])
    ensures WellDone(h.transfers[i].(state := Finished), 1)
  {
    hide HasInternal, PtrOk, AllFresh, SendChunk;
    assert h.port[1..] == [];
    FinishOk(h.transfers[i]);
  }

  lemma ReleaseAlone(h: H, i: nat, net: Net)
    requires Alone(h, i, BufDone)
    ensures var r, t := Handle(h, net), h.transfers[i];
            t.buffers != [] && Onward(h, r, i, t.(buffers := t.buffers[1..]), [SendNextBuffer(i)]) && r.serial == Idle
  {
    hide HasInternal, PtrOk, AllFresh, Payloads;
    assert h.port[1..] == [];
  }

  // ---------------------------------------------------------------------------------------
  // Every pass takes one off the rank
  // ---------------------------------------------------------------------------------------

  lemma BlocksLeft(n: int)
    requires n > TFTP_MAX_DATA_SIZE
    ensures Blocks(n) == 1 + Blocks(n - TFTP_MAX_DATA_SIZE)
  {
  }

  lemma RankOfFirst(t: Ftx)
    requires XferOk(t, Next) && t.buffers != []
    ensures Rank(t, Next, false) == 1 + Rank(SentChunk(t), DataOut, false)
  {
    BytesOfTail(t.buffers);
    assert Fresh(t.buffers[0]);
    assert BytesOf(t.buffers)[0] == t.buffers[0].bytes;
  }

  lemma RankOfCont(t: Ftx)
    requires XferOk(t, Cont)
    ensures t.buffers != [] && Rank(t, Cont, false) == 1 + Rank(SentChunk(Advanced(t)), DataOut, false)
  {
    assert Advanced(t).buffers[1..] == t.buffers[1..];
  }

  lemma RankOfAck(t: Ftx)
    requires XferOk(t, DataOut)
    ensures t.buffers != [] && InBounds(t.buffers[0])
    ensures Rank(t, DataOut, true) ==
              1 + Rank(Acked(t), if t.buffers[0].left > TFTP_MAX_DATA_SIZE then Cont else BufDone, false)
  {
    hide Unacked, Payloads, Cost;
    assert Acked(t).buffers[1..] == t.buffers[1..];
    if t.buffers[0].left > TFTP_MAX_DATA_SIZE {
      BlocksLeft(t.buffers[0].left);
    }
  }

  /** The phase after a message is handled. */
  function After1(h: H, i: nat, ph: Phase): Phase
    requires i < |h.transfers|
  {
    match ph
    case Rest => WrqOut
    case WrqOut => if Reading(h) then Next else WrqOut
    case DataOut =>
      if !Reading(h) then DataOut
      else if h.transfers[i].buffers != [] && h.transfers[i].buffers[0].left > TFTP_MAX_DATA_SIZE then Cont
      else BufDone
    case BufDone => Next
    case _ => DataOut
  }

  lemma AloneNow(r: H, i: nat, t: Ftx, ph: Phase)
    requires r.running && PtrOk(r) && i < |r.transfers| && r.transfers[i] == t && XferOk(t, ph)
    requires r.ioArg == Some(i) && r.local == Some(i)
    requires if ph == WrqOut || ph == DataOut then
               && r.port == [] && r.serial.Pending?
               && r.ioType == if r.serial.op == OpRead then ReadReturn else WriteReturn
             else r.port == Token(ph, i) && r.serial == Idle
    ensures Alone(r, i, ph) && !Ended(t)
  {
    hide PtrOk, Unacked, Payloads, AllFresh;
  }

  lemma StepSending(h: H, i: nat, ph: Phase, net: Net)
    requires Alone(h, i, ph) && net.mem && h.port != [] && FitsTold(h, net)
    requires FramesFit(Payloads(h.transfers[i].writes)) && (ph == Rest || ph == Next || ph == Cont)
    ensures Advances(h, Handle(h, net), i, ph, After1(h, i, ph))
  {
    hide Handle, PtrOk, FitsTold, FramesFit, Payloads, XferOk, Cost, Overrun;
    var t, r := h.transfers[i], Handle(h, net);
    if ph == Rest {
      PickFits(h, i, net);
      PickAlone(h, i, net);
      RequestOk(t);
      AloneNow(r, i, t.(state := WrqSent), WrqOut);
    } else if ph == Cont {
      ContAlone(h, i, net);
      NextChunkOk(t, 0);
      RankOfCont(t);
      AloneNow(r, i, SentChunk(Advanced(t)), DataOut);
    } else if t.buffers != [] {
      FirstAlone(h, i, net);
      FirstChunkOk(t, 0);
      RankOfFirst(t);
      AloneNow(r, i, SentChunk(t), DataOut);
    } else {
      FinishAlone(h, i, net);
      LastRank(t);
    }
  }

  lemma LastRank(t: Ftx)
    requires t.buffers == []
    ensures Rank(t, Next, false) == 1
  {
  }

  lemma RequestOk(t: Ftx)
    requires Untouched(t)
    ensures XferOk(t.(state := WrqSent), WrqOut)
    ensures Rank(t, Rest, false) == 1 + Rank(t.(state := WrqSent), WrqOut, false)
  {
  }

  lemma StepReplied(h: H, i: nat, ph: Phase, net: Net)
    requires Alone(h, i, ph) && net.mem && h.serial.Replied?
    ensures Advances(h, Handle(h, net), i, ph, After1(h, i, ph))
  {
    hide Handle, PtrOk, XferOk, Cost, Blocks, WellDone, Overrun;
    var t, r := h.transfers[i], Handle(h, net);
    if h.serial.op.OpWrite? {
      WriteAlone(h, i, ph, net);
      AloneNow(r, i, t, ph);
    } else if ph == WrqOut {
      GrantAlone(h, i, net);
      GrantOk(t);
      AloneNow(r, i, t, Next);
    } else if t.blknum <= MAX_BLOCKS {
      AckAlone(h, i, net);
      AckOk(t);
      RankOfAck(t);
      AloneNow(r, i, Acked(t), After1(h, i, ph));
    } else {
      OverrunAlone(h, i, net);
    }
  }

  lemma StepReleases(h: H, i: nat, net: Net)
    requires Alone(h, i, BufDone)
    ensures Advances(h, Handle(h, net), i, BufDone, Next)
  {
    hide Handle, PtrOk, XferOk, Cost, Blocks, WellDone, Overrun;
    var t := h.transfers[i];
    ReleaseAlone(h, i, net);
    ReleaseOk(t);
    AloneNow(Handle(h, net), i, t.(buffers := t.buffers[1..]), Next);
  }

  lemma StepAdvances(h: H, i: nat, ph: Phase, net: Net)
    requires Alone(h, i, ph) && net.mem && h.port != [] && FitsTold(h, net)
    requires FramesFit(Payloads(h.transfers[i].writes))
    ensures Advances(h, Handle(h, net), i, ph, After1(h, i, ph))
  {
    hide Handle, PtrOk, FitsTold, FramesFit, Payloads, XferOk, Cost, Advances;
    if ph == WrqOut || ph == DataOut {
      StepReplied(h, i, ph, net);
    } else if ph == BufDone {
      StepReleases(h, i, net);
    } else {
      StepSending(h, i, ph, net);
    }
  }

  lemma DeviceAlone(h: H, i: nat, ph: Phase, mv: Move)
    requires Alone(h, i, ph) && Serving(h, i, mv) && !mv.Step?
    ensures var r := Apply(h, mv);
            Alone(r, i, ph) && r.transfers == h.transfers && h.serial.Pending? && r.serial.Replied?
  {
    hide XferOk, Cost, JustClosed, Agrees, Token;
  }

  /** A completion keeps the rank. */
  lemma DeviceKeeps(h: H, i: nat, ph: Phase, mv: Move)
    requires Alone(h, i, ph) && Serving(h, i, mv) && !mv.Step?
    ensures var r := Apply(h, mv);
            && Alone(r, i, ph) && RankOf(r, i, ph) == RankOf(h, i, ph) && r.transfers == h.transfers
            && h.serial.Pending? && r.serial.Replied?
  {
    hide XferOk, Cost, JustClosed, Agrees, Alone, PtrOk;
    AlonePoints(h, i, ph);
    DeviceAlone(h, i, ph, mv);
  }

  lemma AlonePoints(h: H, i: nat, ph: Phase)
    requires Alone(h, i, ph)
    ensures PtrOk(h) && i < |h.transfers|
  {
  }

  // ---------------------------------------------------------------------------------------
  // Whole runs
  // ---------------------------------------------------------------------------------------

  function Replies(h: H): nat {
    if h.serial.Replied? then 1 else 0
  }

  /** How file i stands after a run from h to r in which so many messages were handled and so many
      things happened. */
  predicate Stands(h: H, r: H, i: nat, ph: Phase, last: Phase, handled: nat, moves: nat)
    requires i < |h.transfers|
  {
    && i < |r.transfers| && r.transfers[i].writes == h.transfers[i].writes
    && if Ended(r.transfers[i]) then
         && handled <= RankOf(h, i, ph) && moves + Replies(h) <= 2 * handled
         && (WellDone(r.transfers[i], RankOf(h, i, ph) + 1 - handled) || Overrun(r.transfers[i]))
       else
         && Alone(r, i, last) && handled + RankOf(r, i, last) == RankOf(h, i, ph)
         && moves + Replies(h) <= 2 * handled + Replies(r)
  }

  lemma AloneGoesOn(h: H, i: nat, ph: Phase)
    requires Alone(h, i, ph)
    ensures !Ended(h.transfers[i]) && RankOf(h, i, ph) > 0
  {
    hide Payloads, Unacked, AllFresh, Cost;
  }

  lemma AloneStands(h: H, i: nat, ph: Phase)
    requires Alone(h, i, ph)
    ensures PtrOk(h) && Stands(h, h, i, ph, ph, 0, 0)
  {
    hide PtrOk, XferOk, Rank;
    AloneGoesOn(h, i, ph);
  }

  lemma {:induction false} RunRank(h: H, i: nat, ph: Phase, moves: seq<Move>) returns (last: Phase)
    requires Alone(h, i, ph) && ServedRun(h, i, moves) && PossibleRun(h, moves)
    requires FramesFit(Payloads(h.transfers[i].writes))
    ensures Stands(h, After(h, moves), i, ph, last, Handled(moves), |moves|)
    decreases |moves|
  {
    hide Alone, Handle, PtrOk, Payloads, FramesFit, Apply, Possible, WellDone, Overrun, Rank, Ended, FitsTold, Replies;
    last := ph;
    AloneStands(h, i, ph);
    if moves != [] {
      var mv := moves[0];
      var r := Apply(h, mv);
      last := OneMove(h, i, ph, mv);
      if moves[1..] == [] {
        assert Handled(moves[1..]) == 0 && After(r, []) == r;
      } else {
        assert ServedRun(r, i, moves[1..]);
        var next := last;
        last := RunRank(r, i, next, moves[1..]);
        var first := if mv.Step? then 1 else 0;
        StandsTwice(h, r, After(h, moves), i, ph, next, last, first, Handled(moves[1..]), |moves| - 1);
      }
    }
  }

  lemma StandsTwice(h: H, r: H, s: H, i: nat, ph: Phase, next: Phase, last: Phase, first: nat, handled: nat, moves: nat)
    requires i < |h.transfers| && i < |r.transfers| && !Ended(r.transfers[i])
    requires Stands(h, r, i, ph, next, first, 1) && Stands(r, s, i, next, last, handled, moves)
    ensures Stands(h, s, i, ph, last, first + handled, 1 + moves)
  {
    hide Alone, WellDone, Overrun, Rank, Ended, Replies;
    assert RankOf(h, i, ph) + 1 - (first + handled) == RankOf(r, i, next) + 1 - handled;
  }

  lemma OneMove(h: H, i: nat, ph: Phase, mv: Move) returns (next: Phase)
    requires Alone(h, i, ph) && PtrOk(h) && i < |h.transfers| && Serving(h, i, mv)
    requires FramesFit(Payloads(h.transfers[i].writes))
    ensures Stands(h, Apply(h, mv), i, ph, next, if mv.Step? then 1 else 0, 1)
  {
    hide Alone, Handle, PtrOk, Payloads, FramesFit, WellDone, Overrun, Rank, FitsTold;
    AloneGoesOn(h, i, ph);
    if mv.Step? {
      next := After1(h, i, ph);
      StepAdvances(h, i, ph, mv.net);
      AdvancesStands(h, Apply(h, mv), i, ph, next);
    } else {
      next := ph;
      DeviceKeeps(h, i, ph, mv);
    }
  }

  lemma AdvancesStands(h: H, r: H, i: nat, ph: Phase, next: Phase)
    requires i < |h.transfers| && Advances(h, r, i, ph, next) && RankOf(h, i, ph) > 0
    ensures Stands(h, r, i, ph, next, 1, 1)
  {
    hide Alone, Rank;
    if Ended(r.transfers[i]) && WellDone(r.transfers[i], RankOf(h, i, ph)) {
      assert RankOf(h, i, ph) + 1 - 1 == RankOf(h, i, ph);
    }
  }

  /** One file of at most 65535 blocks whose frames fit, on its own, against a server that always
      acknowledges, is finished after exactly so many messages, and never fails. */
  lemma {:induction false} ExactTermination(h: H, i: nat, moves: seq<Move>)
    requires JustClosed(h, i) && ServedRun(h, i, moves) && PossibleRun(h, moves)
    requires i < |h.transfers| && FramesFit(Payloads(h.transfers[i].writes))
    requires |Payloads(h.transfers[i].writes)| <= MAX_BLOCKS
    ensures var r, all := After(h, moves), 4 + Cost(h.transfers[i].writes);
            && i < |r.transfers| && (r.transfers[i].state == Finished <==> Handled(moves) == all)
            && r.transfers[i].state != Error && Handled(moves) <= all && |moves| <= 2 * all
            && (r.transfers[i].state == Finished ==> r.transfers[i].acked == Payloads(h.transfers[i].writes))
  {
    hide Payloads, Cost, FramesFit;
    StartsAlone(h, i);
    var last := RunRank(h, i, Rest, moves);
    StandsExact(h, After(h, moves), i, last, Handled(moves), |moves|);
  }

  lemma StartsAlone(h: H, i: nat)
    requires JustClosed(h, i)
    ensures Alone(h, i, Rest) && RankOf(h, i, Rest) == 4 + Cost(h.transfers[i].writes)
  {
    hide Cost;
  }

  lemma StandsExact(h: H, r: H, i: nat, last: Phase, handled: nat, moves: nat)
    requires i < |h.transfers| && Stands(h, r, i, Rest, last, handled, moves)
    ensures i < |r.transfers| && handled <= RankOf(h, i, Rest) && moves <= 2 * RankOf(h, i, Rest)
    ensures r.transfers[i].state == Finished ==> |Payloads(h.transfers[i].writes)| <= MAX_BLOCKS
    ensures r.transfers[i].state == Finished ==> r.transfers[i].acked == Payloads(h.transfers[i].writes)
    ensures r.transfers[i].state == Finished ==> handled == RankOf(h, i, Rest)
    ensures handled == RankOf(h, i, Rest) ==> Ended(r.transfers[i])
    ensures r.transfers[i].state == Error ==> Overrun(r.transfers[i])
    ensures r.transfers[i].state == Error ==> |Payloads(h.transfers[i].writes)| > MAX_BLOCKS
  {
    hide Alone, Rank, Payloads;
    if !Ended(r.transfers[i]) {
      AloneGoesOn(r, i, last);
    }
  }

  /** A longer one fails right after DATA packet 65536, with 65535 payloads acknowledged. */
  lemma {:induction false} TooLong(h: H, i: nat, moves: seq<Move>)
    requires JustClosed(h, i) && ServedRun(h, i, moves) && PossibleRun(h, moves)
    requires i < |h.transfers| && FramesFit(Payloads(h.transfers[i].writes))
    requires |Payloads(h.transfers[i].writes)| > MAX_BLOCKS
    ensures var r, all := After(h, moves), 4 + Cost(h.transfers[i].writes);
            && i < |r.transfers| && r.transfers[i].state != Finished
            && (r.transfers[i].state == Error ==>
                  && r.transfers[i].error == ERROR_TFTP_WRONG_BLOCK_NUM && r.transfers[i].blknum == MAX_BLOCKS + 1
                  && |r.transfers[i].acked| == MAX_BLOCKS)
            && (Handled(moves) == all ==> r.transfers[i].state == Error) && |moves| <= 2 * all
  {
    hide Payloads, Cost, FramesFit;
    StartsAlone(h, i);
    var last := RunRank(h, i, Rest, moves);
    StandsExact(h, After(h, moves), i, last, Handled(moves), |moves|);
  }

  /** And until the file has ended, there is always something that can happen next. */
  lemma {:induction false} AlwaysGoesOn(h: H, i: nat, moves: seq<Move>) returns (mv: Move)
    requires JustClosed(h, i) && ServedRun(h, i, moves) && PossibleRun(h, moves)
    requires i < |h.transfers| && FramesFit(Payloads(h.transfers[i].writes))
    ensures var r := After(h, moves); i < |r.transfers| && (!Ended(r.transfers[i]) ==> Serving(r, i, mv))
  {
    hide Alone, Payloads, FramesFit, Ended, WellDone, Overrun, Rank, Serving;
    StartsAlone(h, i);
    var last := RunRank(h, i, Rest, moves);
    var r := After(h, moves);
    mv := TimerFires;
    if !Ended(r.transfers[i]) {
      mv := Enabled(r, i, last);
    }
  }

  lemma Enabled(h: H, i: nat, ph: Phase) returns (mv: Move)
    requires Alone(h, i, ph)
    ensures Serving(h, i, mv)
  {
    hide XferOk, JustClosed, Fits, TftpBytes;
    AloneGoesOn(h, i, ph);
    if h.port != [] {
      var p := Outgoing(h);
      mv := Step(Net(true, p.Some? && Fits(TftpBytes(p.value))));
    } else if h.serial.op.OpWrite? {
      mv := WriteDone(0);
    } else {
      var bytes := AckBytes(Wire(h.transfers[i].blknum));
      AckFields(Wire(h.transfers[i].blknum), []);
      assert bytes + [] == bytes;
      mv := ReadDone(0, Payload(bytes));
    }
  }

  /** The close of a file with which nothing competes leads to that state. */
  lemma CloseStarts(h: H, i: nat, net: Net)
    requires h.running && PtrOk(h) && !h.busy && h.serial == Idle && h.port == [End(i)]
    requires Points(End(i), |h.transfers|) && Untouched(h.transfers[i])
    requires forall j :: 0 <= j < |h.transfers| ==> h.transfers[j].state != Ready
    ensures JustClosed(Handle(h, net), i) && Handle(h, net).transfers[i].writes == h.transfers[i].writes
  {
    hide HasInternal, PtrOk;
    assert h.port[1..] == [];
    var t := h.transfers[i].(state := Ready);
    var ts := h.transfers[i := t];
    assert Untouched(t);
    assert ts[i].state == Ready;
    assert NextReady(ts, 0) == Some(i);
    assert Handle(h, net).transfers == ts && Handle(h, net).port == [SendNextFile];
  }
}

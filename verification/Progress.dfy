/** Runs without faults get somewhere: a bound on what the handler, the line and the server do between two
    messages of clients, and the proof that they stop only when every closed file has ended. */
module Progress {
  import opened Bytes
  import opened Messages
  import opened Packets
  import opened Engine
  import opened Files
  import opened Ownership
  import opened Effects
  import opened Overtaking
  import opened Server
  import opened Delivery
  import opened Shape
  import opened CleanEnd
  import opened Termination
  import opened Wakeup

  // ---------------------------------------------------------------------------------------
  // The work that is left
  // ---------------------------------------------------------------------------------------

  /** Events for a file that has not been started, should it be closed: twice its rank, and two for the
      message that announces its end. */
  function FileWork(t: Ftx): nat {
    if Waiting(t) then 2 * (4 + Cost(BytesOf(t.buffers))) + 2 else 0
  }

  function FilesWork(ts: seq<Ftx>): nat {
    if ts == [] then 0 else FileWork(ts[0]) + FilesWork(ts[1..])
  }

  /** Events a message stands for, but for the active transfer's. A message of a client brings the work of
      what it asks for. */
  function Weight(m: Msg<nat>): nat {
    match m
    case FindOutput(_) => 11
    case Write(_, bytes) => 6 * Blocks(|bytes|) + 3
    case End(_) => 2
    case Die => 1
    case Other => 1
    case SendNextFile => 1
    case FileFinished(_) => 2
    case FileFailed(_) => 2
    case _ => 0
  }

  function PortWork(q: seq<Msg<nat>>): nat {
    if q == [] then 0 else Weight(q[0]) + PortWork(q[1..])
  }

  /** Events for the active transfer: each message it still needs has at most one completion before it. */
  function ActiveWork(h: H, ph: Phase): nat {
    if ph == Rest || h.ioArg.None? || h.ioArg.value >= |h.transfers| then 0
    else 2 * RankOf(h, h.ioArg.value, ph) + 2 - Min(Replies(h), 2)
  }

  function Work(h: H, ph: Phase): nat {
    FilesWork(h.transfers) + PortWork(h.port) + ActiveWork(h, ph)
  }

  lemma {:induction false} PortWorkJoin(a: seq<Msg<nat>>, b: seq<Msg<nat>>)
    ensures PortWork(a + b) == PortWork(a) + PortWork(b)
  {
    hide Weight;
    if a == [] {
      assert a + b == b;
    } else {
      assert (a + b)[1..] == a[1..] + b;
      PortWorkJoin(a[1..], b);
    }
  }

  lemma {:induction false} FilesWorkSet(ts: seq<Ftx>, i: nat, t: Ftx)
    requires i < |ts|
    ensures FilesWork(ts[i := t]) + FileWork(ts[i]) == FilesWork(ts) + FileWork(t)
  {
    hide FileWork;
    if i == 0 {
      assert ts[0 := t][1..] == ts[1..];
    } else {
      assert ts[i := t][1..] == ts[1..][i - 1 := t];
      FilesWorkSet(ts[1..], i - 1, t);
    }
  }

  lemma {:induction false} FilesWorkMore(ts: seq<Ftx>, t: Ftx)
    ensures FilesWork(ts + [t]) == FilesWork(ts) + FileWork(t)
  {
    hide FileWork;
    if ts == [] {
      assert ts + [t] == [t] && [t][1..] == [];
    } else {
      assert (ts + [t])[1..] == ts[1..] + [t];
      FilesWorkMore(ts[1..], t);
    }
  }

  lemma {:induction false} CostMore(writes: seq<seq<byte>>, bytes: seq<byte>)
    ensures Cost(writes + [bytes]) == Cost(writes) + 3 * Blocks(|bytes|) + 1
  {
    hide Blocks;
    if writes == [] {
      assert writes + [bytes] == [bytes] && [bytes][1..] == [];
      assert Cost([bytes]) == 3 * Blocks(|bytes|) + 1 + Cost([]);
    } else {
      assert (writes + [bytes])[1..] == writes[1..] + [bytes];
      CostMore(writes[1..], bytes);
    }
  }

  // ---------------------------------------------------------------------------------------
  // What a pass without faults does
  // ---------------------------------------------------------------------------------------

  /** The first message is taken off, record i becomes t, and more is queued. */
  predicate Turns(h: H, r: H, i: nat, t: Ftx, more: seq<Msg<nat>>) {
    && h.port != [] && i < |h.transfers| && r.transfers == h.transfers[i := t] && r.port == h.port[1..] + more
    && Die !in more
  }

  /** The active transfer's message: it is further on, or has ended, which is announced. */
  predicate GoesOn(h: H, ph: Phase, r: H, next: Phase, i: nat, t: Ftx, more: seq<Msg<nat>>) {
    && Turns(h, r, i, t, more) && !Waiting(t) && r.ioArg == h.ioArg && !r.serial.Replied?
    && PortWork(more) <= (if next == Rest then 2 else 0)
    && (next != Rest ==> i < |h.transfers| && Rank(t, next, Reading(r)) < RankOf(h, i, ph))
  }

  lemma OneMessage(m: Msg<nat>)
    ensures PortWork([m]) == Weight(m) && (m != Die ==> Die !in [m])
  {
    assert [m][1..] == [];
  }

  lemma NoMessage(q: seq<Msg<nat>>)
    ensures PortWork([]) == 0 && q + [] == q
  {
  }

  /** A chunk of record t is sent, or cannot be sent. */
  lemma ChunkTurns(h: H, u: H, i: nat, t: Ftx, net: Net) returns (t1: Ftx, more: seq<Msg<nat>>)
    requires h.port != [] && u.port == h.port[1..] && u.transfers == h.transfers
    requires u.ioArg == h.ioArg && u.serial == Idle
    requires i < |h.transfers| && t.buffers != [] && InBounds(t.buffers[0])
    requires (t.blknum + 1) % TWO32 == t.blknum + 1
    ensures var r := SendChunk(SetFtx(u, i, t), i, net);
            && Turns(h, r, i, t1, more) && !Waiting(t1) && r.ioArg == h.ioArg && !r.serial.Replied?
            && (if SendError(net) == 0 then t1 == SentChunk(t) && more == [] && !Reading(r)
                else more == [FileFailed(i)])
  {
    hide SendChunk, InBounds, Chunk, HasInternal;
    if SendError(net) == 0 {
      ChunkSent(u, i, t, net);
      t1, more := SentChunk(t), [];
      NoMessage(h.port[1..]);
    } else {
      ChunkFailed(u, i, t, net);
      t1, more := FailedChunk(t, net), [FileFailed(i)];
    }
  }

  lemma FirstTurns(h: H, i: nat, net: Net) returns (t: Ftx, more: seq<Msg<nat>>)
    requires h.port != [] && Up(Rest1(h), i, Next) && h.transfers[i].buffers != []
    ensures GoesOn(h, Next, DoSendNextBuffer(Rest1(h), i, net), if SendError(net) == 0 then DataOut else Rest, i, t,
                   more)
  {
    hide SendChunk, Cost, HasInternal, Signals, QueueOk, OthersOk, XferOk, Blocks;
    var h1, t0 := Rest1(h), h.transfers[i];
    var u := h1.(local := Some(i));
    FirstChunkOk(t0, 0);
    assert u.transfers[i := t0] == u.transfers;
    t, more := ChunkTurns(h, u, i, t0, net);
    RankOfFirst(t0);
    OneMessage(FileFailed(i));
    NoMessage([]);
  }

  lemma FinishTurns(h: H, i: nat, net: Net) returns (t: Ftx, more: seq<Msg<nat>>)
    requires h.port != [] && Up(Rest1(h), i, Next) && h.transfers[i].buffers == []
    ensures GoesOn(h, Next, DoSendNextBuffer(Rest1(h), i, net), Rest, i, t, more)
  {
    hide SendChunk, Cost, HasInternal, Signals, QueueOk, OthersOk, XferOk, Blocks, Rank;
    t, more := h.transfers[i].(state := Finished), [FileFinished(i)];
    OneMessage(FileFinished(i));
  }

  lemma NextTurns(h: H, i: nat, net: Net) returns (t: Ftx, more: seq<Msg<nat>>)
    requires h.port != [] && Up(Rest1(h), i, Next)
    ensures i < |h.transfers|
    ensures GoesOn(h, Next, DoSendNextBuffer(Rest1(h), i, net),
                   if h.transfers[i].buffers != [] && SendError(net) == 0 then DataOut else Rest, i, t, more)
  {
    hide Up, GoesOn, DoSendNextBuffer;
    UpXfer(Rest1(h), i, Next);
    if h.transfers[i].buffers != [] {
      t, more := FirstTurns(h, i, net);
    } else {
      t, more := FinishTurns(h, i, net);
    }
  }

  lemma ContinueTurns(h: H, i: nat, net: Net) returns (t: Ftx, more: seq<Msg<nat>>)
    requires h.port != [] && Up(Rest1(h), i, Cont)
    ensures GoesOn(h, Cont, DoContinueBuffer(Rest1(h), i, net), if SendError(net) == 0 then DataOut else Rest, i, t,
                   more)
  {
    hide SendChunk, Cost, HasInternal, Signals, QueueOk, OthersOk, XferOk, Blocks;
    var h1, t0 := Rest1(h), h.transfers[i];
    var u := h1.(local := Some(i));
    ContHead(t0);
    NextChunkOk(t0, 0);
    t, more := ChunkTurns(h, u, i, Advanced(t0), net);
    RankOfCont(t0);
    OneMessage(FileFailed(i));
    NoMessage([]);
  }

  lemma ReleaseTurns(h: H, i: nat) returns (t: Ftx, more: seq<Msg<nat>>)
    requires h.port != [] && Up(Rest1(h), i, BufDone)
    ensures GoesOn(h, BufDone, DoBufferFinished(Rest1(h), i), Next, i, t, more)
  {
    hide Cost, HasInternal, Signals, QueueOk, OthersOk, Blocks, Conserved;
    t, more := h.transfers[i].(buffers := h.transfers[i].buffers[1..]), [SendNextBuffer(i)];
    OneMessage(SendNextBuffer(i));
  }

  lemma ActiveTurns(h: H, ph: Phase, net: Net) returns (t: Ftx, more: seq<Msg<nat>>)
    requires PtrOk(h) && h.port != [] && Inv(h, ph) && KindOf(h.port[0]) == Active
    ensures h.ioArg.Some? && GoesOn(h, ph, Handle(h, net), NextPhase(h, ph, net), h.ioArg.value, t, more)
    ensures ph != Rest && h.ioArg.value < |h.transfers| && !Waiting(h.transfers[h.ioArg.value]) && !h.serial.Replied?
  {
    hide Inv, Up, PtrOk, GoesOn, DoSendNextBuffer, DoContinueBuffer, DoBufferFinished;
    HeadPoints(h);
    TakeToken(h, ph);
    TakenActive(h, ph);
    var i := h.ioArg.value;
    match h.port[0]
    case SendNextBuffer(_) => t, more := NextTurns(h, i, net);
    case ContinueBuffer(_) => t, more := ContinueTurns(h, i, net);
    case BufferFinished(_) => t, more := ReleaseTurns(h, i);
  }

  // ---------------------------------------------------------------------------------------
  // Replies
  // ---------------------------------------------------------------------------------------

  lemma {:induction false} WithoutNone(q: seq<Msg<nat>>, k: Kind)
    requires Of(q, k) == []
    ensures Without(q, k) == q
  {
    if q != [] {
      WithoutNone(q[1..], k);
    }
  }

  /** Nothing is left of the timer. */
  lemma NoTimerLeft(h: H, ph: Phase)
    requires h.port != [] && Inv(h, ph) && h.timer != Fired
    ensures Without(h.port[1..], Timer) == h.port[1..]
  {
    hide XferOk, RestOk, QueueOk, OthersOk;
    WithoutNone(h.port[1..], Timer);
  }

  lemma WriteTurns(h: H, ph: Phase, net: Net)
    requires PtrOk(h) && h.port != [] && Inv(h, ph) && h.port[0] == SerialReply && h.ioType == WriteReturn
    requires net.mem && h.timer != Fired
    ensures h.ioArg.Some? && h.ioArg.value < |h.transfers|
    ensures GoesOn(h, ph, Handle(h, net), ph, h.ioArg.value, h.transfers[h.ioArg.value], [])
  {
    hide PtrOk, Without, Cost, Signals, QueueOk, OthersOk, XferOk, Blocks, RestOk;
    HeadPoints(h);
    TakeSerial(h, ph);
    ReplyOp(h, ph);
    NoTimerLeft(h, ph);
    InvActive(h, ph);
    NoMessage(h.port[1..]);
    var i := h.ioArg.value;
    assert h.transfers[i := h.transfers[i]] == h.transfers;
  }

  /** The reply is looked at in state u, which is as before but for the port and the requests. */
  lemma GrantTurns(h: H, u: H, i: nat) returns (more: seq<Msg<nat>>)
    requires h.port != [] && u.port == h.port[1..] && u.transfers == h.transfers
    requires u.ioArg == h.ioArg && u.serial == Idle
    requires i < |h.transfers| && h.transfers[i].state == WrqSent && |u.tftppkt| >= 4 && GetOpcode(u.tftppkt) == OP_ACK
    requires Reading(h)
    ensures GoesOn(h, WrqOut, DoReply(u, i), Next, i, h.transfers[i], more)
  {
    hide Cost, HasInternal, GetOpcode, GetBlknum;
    more := [SendNextBuffer(i)];
    OneMessage(SendNextBuffer(i));
    assert h.transfers[i := h.transfers[i]] == h.transfers;
  }

  lemma AckTurns(h: H, u: H, i: nat) returns (t: Ftx, more: seq<Msg<nat>>)
    requires h.port != [] && u.port == h.port[1..] && u.transfers == h.transfers
    requires u.ioArg == h.ioArg && u.serial == Idle
    requires i < |h.transfers| && XferOk(h.transfers[i], DataOut) && |u.tftppkt| >= 4 && GetOpcode(u.tftppkt) == OP_ACK
    requires GetBlknum(u.tftppkt) == h.transfers[i].blknum && Reading(h)
    ensures GoesOn(h, DataOut, DoReply(u, i), AfterReply(h.transfers[i], u.tftppkt), i, t, more)
  {
    hide Cost, HasInternal, GetOpcode, GetBlknum, Blocks, Chunk, Conserved, Rank;
    var t0 := h.transfers[i];
    RankOfAck(t0);
    t := Acked(t0);
    more := [if t0.buffers[0].left > TFTP_MAX_DATA_SIZE then ContinueBuffer(i) else BufferFinished(i)];
    OneMessage(more[0]);
  }

  lemma RefuseTurns(h: H, ph: Phase, u: H, i: nat) returns (t: Ftx, more: seq<Msg<nat>>)
    requires h.port != [] && u.port == h.port[1..] && u.transfers == h.transfers
    requires u.ioArg == h.ioArg && u.serial == Idle
    requires i < |h.transfers| && Sent(h.transfers[i]) && |u.tftppkt| >= 4
    requires AfterReply(h.transfers[i], u.tftppkt) == Rest
    ensures GoesOn(h, ph, DoReply(u, i), Rest, i, t, more)
  {
    hide HasInternal, GetOpcode, GetBlknum, DoAcked, RankOf;
    t, more := DoReply(u, i).transfers[i], [FileFailed(i)];
    OneMessage(FileFailed(i));
  }

  lemma ReplyTurns(h: H, ph: Phase, u: H, i: nat) returns (t: Ftx, more: seq<Msg<nat>>)
    requires h.port != [] && u.port == h.port[1..] && u.transfers == h.transfers
    requires u.ioArg == h.ioArg && u.serial == Idle
    requires i < |h.transfers| && XferOk(h.transfers[i], ph) && (ph == WrqOut || ph == DataOut) && |u.tftppkt| >= 4
    requires Reading(h)
    ensures GoesOn(h, ph, DoReply(u, i), AfterReply(h.transfers[i], u.tftppkt), i, t, more)
  {
    hide GoesOn, DoReply, GetOpcode, GetBlknum, Conserved, Untouched, HeadOk;
    XferSent(h.transfers[i], ph);
    if AfterReply(h.transfers[i], u.tftppkt) == Rest {
      t, more := RefuseTurns(h, ph, u, i);
    } else if ph == WrqOut {
      t := h.transfers[i];
      more := GrantTurns(h, u, i);
    } else {
      t, more := AckTurns(h, u, i);
    }
  }

  lemma ReadTurns(h: H, ph: Phase, net: Net) returns (t: Ftx, more: seq<Msg<nat>>)
    requires PtrOk(h) && h.port != [] && Inv(h, ph) && h.port[0] == SerialReply && h.ioType == ReadReturn
    requires net.mem && h.timer != Fired && h.serial.Replied? && h.serial.status == 0 && h.serial.reply.Payload?
    ensures h.ioArg.Some? && h.ioArg.value < |h.transfers|
    ensures GoesOn(h, ph, Handle(h, net), NextPhase(h, ph, net), h.ioArg.value, t, more)
  {
    hide Inv, Up, PtrOk, Without, GoesOn, DoReply, AfterReply, Overlay;
    HeadPoints(h);
    ArgPoints(h);
    TakeSerial(h, ph);
    ReplyOp(h, ph);
    NoTimerLeft(h, ph);
    InvActive(h, ph);
    var i := h.ioArg.value;
    var u := StopTimer(Rest1(h)).(serial := Idle, tftppkt := Overlay(h.tftppkt, h.serial.reply.bytes));
    t, more := ReplyTurns(h, ph, u, i);
  }

  // ---------------------------------------------------------------------------------------
  // Every event without clients leaves less work
  // ---------------------------------------------------------------------------------------

  lemma RankPositive(t: Ftx, ph: Phase, reading: bool)
    ensures Rank(t, ph, reading) > 0
  {
    hide Cost;
  }

  lemma GoingOnFalls(h: H, ph: Phase, r: H, next: Phase, i: nat, t: Ftx, more: seq<Msg<nat>>)
    requires GoesOn(h, ph, r, next, i, t, more) && ph != Rest && h.ioArg == Some(i) && i < |h.transfers|
    requires !Waiting(h.transfers[i]) && Weight(h.port[0]) == 0
    ensures Work(r, next) < Work(h, ph)
  {
    hide Rank, FilesWork, Waiting;
    RankPositive(h.transfers[i], ph, Reading(h));
    FilesWorkSet(h.transfers, i, t);
    PortWorkJoin(h.port[1..], more);
  }

  /** A message other than the active transfer's: the files and the port have less work, and the active
      transfer is as before. */
  predicate Lighter(h: H, r: H) {
    FilesWork(r.transfers) + PortWork(r.port) < FilesWork(h.transfers) + PortWork(h.port)
  }

  lemma SameWork(h: H, r: H, ph: Phase)
    requires Lighter(h, r) && (ph != Rest ==> SameActive(h, r))
    ensures Work(r, ph) < Work(h, ph)
  {
    hide Rank, FilesWork, PortWork;
  }

  lemma OpenLighter(h: H, name: CString)
    requires h.port != [] && h.port[0] == FindOutput(name)
    ensures Lighter(h, DoFindOutput(Rest1(h), name, true))
  {
    hide FilesWork;
    FilesWorkMore(h.transfers, NewFtx(name));
    assert BytesOf(NewFtx(name).buffers) == [];
  }

  lemma WriteLighter(h: H, i: nat, bytes: seq<byte>)
    requires h.port != [] && h.port[0] == Write(i, bytes) && i < |h.transfers| && h.transfers[i].state == Queued
    ensures Lighter(h, DoWrite(Rest1(h), i, bytes, true))
  {
    hide FilesWork, Cost, Blocks;
    var t := h.transfers[i];
    FilesWorkSet(h.transfers, i, Written(t, bytes));
    CostMore(BytesOf(t.buffers), bytes);
    assert BytesOf(t.buffers + [FreshBuf(bytes)]) == BytesOf(t.buffers) + [bytes];
  }

  lemma EndLighter(h: H, i: nat)
    requires h.port != [] && h.port[0] == End(i) && i < |h.transfers| && h.transfers[i].state == Queued
    ensures Lighter(h, DoEnd(Rest1(h), i))
  {
    hide FilesWork, Cost, HasInternal;
    FilesWorkSet(h.transfers, i, h.transfers[i].(state := Ready));
    PortWorkJoin(h.port[1..], [SendNextFile]);
    OneMessage(SendNextFile);
  }

  lemma DoneLighter(h: H, i: nat)
    requires h.port != [] && (h.port[0] == FileFinished(i) || h.port[0] == FileFailed(i)) && i < |h.transfers|
    requires !Waiting(h.transfers[i])
    ensures Lighter(h, DoFileDone(Rest1(h), i))
  {
    hide FilesWork, Cost, HasInternal, Unacked;
    var t := h.transfers[i];
    FilesWorkSet(h.transfers, i, t.(buffers := [], dropped := t.dropped + Unacked(t.buffers)));
    PortWorkJoin(h.port[1..], [SendNextFile]);
    OneMessage(SendNextFile);
  }

  lemma NothingLighter(h: H, net: Net)
    requires h.port != [] && h.port[0] == SendNextFile && Starts(h) == None
    ensures Lighter(h, DoSendNextFile(Rest1(h), net)) && DoSendNextFile(Rest1(h), net).port == h.port[1..]
  {
    hide FilesWork, Send, NextReady;
  }

  lemma OtherLighter(h: H, ph: Phase, net: Net)
    requires PtrOk(h) && h.port != [] && Inv(h, ph) && Starts(h) == None && net.mem
    requires (KindOf(h.port[0]) == Client && h.port[0] != Die) || KindOf(h.port[0]) == Wake
    ensures Lighter(h, Handle(h, net))
  {
    hide Inv, PtrOk, Lighter, DoFindOutput, DoWrite, DoEnd, DoSendNextFile, DoFileDone;
    HeadPoints(h);
    HeadFacts(h, ph);
    match h.port[0]
    case FindOutput(name) => OpenLighter(h, name);
    case Write(i, bytes) => WriteLighter(h, i, bytes);
    case End(i) => EndHead(h, i); EndLighter(h, i);
    case Other => NoneLighter(h);
    case SendNextFile => NothingLighter(h, net);
    case FileFinished(i) => DoneLighter(h, i);
    case FileFailed(i) => DoneLighter(h, i);
  }

  lemma NoneLighter(h: H)
    requires h.port != [] && h.port[0] == Other
    ensures Lighter(h, Rest1(h))
  {
  }

  /** A file is picked. */
  lemma PickFalls(h: H, net: Net)
    requires PtrOk(h) && h.port != [] && Starts(h).Some? && SendError(net) == 0
    ensures Work(Handle(h, net), WrqOut) < Work(h, Rest) && Handle(h, net).port == h.port[1..]
  {
    hide PtrOk, FilesWork, PortWork, NextReady, Fail, Cost;
    var i := Starts(h).value;
    FilesWorkSet(h.transfers, i, h.transfers[i].(state := WrqSent));
    HeadWork(h.port);
  }

  lemma HeadWork(q: seq<Msg<nat>>)
    requires q != []
    ensures PortWork(q) == Weight(q[0]) + PortWork(q[1..])
  {
  }

  // ---------------------------------------------------------------------------------------
  // Runs
  // ---------------------------------------------------------------------------------------

  /** A state of a run without faults. */
  predicate Steady(s: Sys, ph: Phase) {
    Smooth(s, ph) && PtrOk(s.h) && !s.h.stranded && Die !in s.h.port && Awake(s.h)
  }

  predicate FromClient(ev: Event) {
    ev.ClientMsg?
  }

  lemma DieStays(h: H, r: H, more: seq<Msg<nat>>)
    requires h.port != [] && Die !in h.port && r.port == h.port[1..] + more && Die !in more
    ensures Die !in r.port
  {
  }

  /** A pass leaves less work, and no shutdown at the port. */
  lemma PassFalls(s: Sys, ph: Phase, net: Net)
    requires Steady(s, ph) && FaultFree(s, Pass(net))
    ensures Work(Handle(s.h, net), NextPhase(s.h, ph, net)) < Work(s.h, ph) && Die !in Handle(s.h, net).port
    ensures Handle(s.h, net).stranded == s.h.stranded && s.h.port[1..] <= Handle(s.h, net).port
  {
    hide Inv, PtrOk, Handle, Books, ActiveOk, AllClean, ErrorsExcused, NextPhase, Orderly, FitsTold, GoesOn,
         Lighter, Awake,
         Work;
    var h, r := s.h, Handle(s.h, net);
    NoTimer(h, ph);
    HandleStrands(h, net);
    if Starts(h).Some? {
      RequestAlwaysFits(h, net);
      StartsFromRest(h, ph, net);
      PickFalls(h, net);
    } else if KindOf(h.port[0]) == Active {
      var t, more := ActiveTurns(h, ph, net);
      ActiveFalls(h, ph, net, h.ioArg.value, t, more);
    } else if h.port[0] == SerialReply {
      SerialFalls(s, ph, net);
    } else {
      OtherLighter(h, ph, net);
      QuietPhase(h, ph, net);
      if ph != Rest {
        OtherActive(h, ph, net);
      }
      SameWork(h, r, ph);
      OtherDie(h, ph, net);
    }
  }

  lemma ActiveFalls(h: H, ph: Phase, net: Net, i: nat, t: Ftx, more: seq<Msg<nat>>)
    requires PtrOk(h) && h.port != [] && GoesOn(h, ph, Handle(h, net), NextPhase(h, ph, net), i, t, more) && ph != Rest
    requires h.ioArg == Some(i) && i < |h.transfers| && !Waiting(h.transfers[i]) && Die !in h.port
    requires KindOf(h.port[0]) == Active || KindOf(h.port[0]) == Kind.Serial
    ensures Work(Handle(h, net), NextPhase(h, ph, net)) < Work(h, ph) && Die !in Handle(h, net).port
    ensures h.port[1..] <= Handle(h, net).port
  {
    hide PtrOk, Handle, NextPhase, Work, Waiting, Rank;
    GoingOnFalls(h, ph, Handle(h, net), NextPhase(h, ph, net), i, t, more);
    DieStays(h, Handle(h, net), more);
  }

  lemma SerialFalls(s: Sys, ph: Phase, net: Net)
    requires Steady(s, ph) && FaultFree(s, Pass(net)) && s.h.port[0] == SerialReply
    ensures Work(Handle(s.h, net), NextPhase(s.h, ph, net)) < Work(s.h, ph) && Die !in Handle(s.h, net).port
    ensures s.h.port[1..] <= Handle(s.h, net).port
  {
    hide Inv, Up, PtrOk, Handle, Books, ActiveOk, AllClean, ErrorsExcused, NextPhase, Orderly, FitsTold,
         GoesOn, Awake, Work;
    var h := s.h;
    TakeSerial(h, ph);
    ReplyOp(h, ph);
    InvActive(h, ph);
    if h.ioType == WriteReturn {
      WriteTurns(h, ph, net);
      WriteKeepsPhase(h, ph, net);
      ActiveFalls(h, ph, net, h.ioArg.value, h.transfers[h.ioArg.value], []);
    } else {
      var t, more := ReadTurns(h, ph, net);
      ActiveFalls(h, ph, net, h.ioArg.value, t, more);
    }
  }

  /** The other messages stay where they are. */
  lemma OtherDie(h: H, ph: Phase, net: Net)
    requires PtrOk(h) && h.port != [] && Inv(h, ph) && Starts(h) == None && net.mem && Die !in h.port
    requires KindOf(h.port[0]) == Client || KindOf(h.port[0]) == Wake
    ensures Die !in Handle(h, net).port && h.port[1..] <= Handle(h, net).port
  {
    hide Inv, PtrOk, DoSendNextFile, DoFindOutput, DoWrite, DoEnd, DoFileDone;
    HeadPoints(h);
    HeadFacts(h, ph);
    assert Die !in h.port[1..];
    match h.port[0]
    case SendNextFile => NothingLighter(h, net);
    case FindOutput(name) => OpenPort(Rest1(h), name);
    case Write(i, bytes) => WritePort(Rest1(h), i, bytes);
    case End(i) => EndHead(h, i); EndPort(Rest1(h), i);
    case FileFinished(i) => DonePort(Rest1(h), i);
    case FileFailed(i) => DonePort(Rest1(h), i);
    case Other =>
  }

  lemma OpenPort(h: H, name: CString)
    ensures DoFindOutput(h, name, true).port == h.port
  {
  }

  lemma WritePort(h: H, i: nat, bytes: seq<byte>)
    requires i < |h.transfers|
    ensures DoWrite(h, i, bytes, true).port == h.port
  {
  }

  lemma EndPort(h: H, i: nat)
    requires i < |h.transfers|
    ensures DoEnd(h, i).port == h.port + [SendNextFile]
  {
  }

  lemma DonePort(h: H, i: nat)
    requires i < |h.transfers|
    ensures DoFileDone(h, i).port == h.port + [SendNextFile]
  {
  }

  /** A completion leaves less work. */
  lemma DeviceFalls(h: H, ph: Phase, status: nat, reply: Extracted)
    requires Inv(h, ph) && h.serial.Pending?
    ensures var r := h.(serial := Replied(h.serial.op, status, reply), port := h.port + [SerialReply]);
            Work(r, ph) < Work(h, ph)
  {
    hide FilesWork, Rank, Signals, QueueOk, OthersOk, XferOk;
    PortWorkJoin(h.port, [SerialReply]);
    OneMessage(SerialReply);
  }

  /** A client brings the work its message asks for. */
  lemma ClientAdds(h: H, ph: Phase, m: Msg<nat>)
    ensures Work(h.(port := h.port + [m]), ph) == Work(h, ph) + Weight(m)
  {
    hide FilesWork, Rank, Weight;
    PortWorkJoin(h.port, [m]);
    assert [m][1..] == [];
  }

  lemma StepFalls(s: Sys, ph: Phase, ev: Event)
    requires Steady(s, ph) && FaultFree(s, ev)
    ensures Steady(Next1(s, ev), PhaseNext(s, ph, ev))
    ensures match ev
            case ClientMsg(m) => Work(Next1(s, ev).h, PhaseNext(s, ph, ev)) == Work(s.h, ph) + Weight(m)
            case _ => Work(Next1(s, ev).h, PhaseNext(s, ph, ev)) < Work(s.h, ph)
  {
    hide Inv, PtrOk, Handle, Books, ActiveOk, AllClean, ErrorsExcused, NextPhase, Orderly, Extract, Image,
         ImageSize, Arrived,
         Awake, Work, Weight, FitsTold;
    SmoothStep(s, ph, ev);
    ApplyAwake(s.h, MoveOf(s, ev));
    match ev
    case Pass(net) => PassFalls(s, ph, net);
    case WriteEnds => DeviceFalls(s.h, ph, 0, Payload([]));
    case ReadEnds(_, _) => DeviceFalls(s.h, ph, 0, Extract(Image(s, ev), ImageSize(s, ev)));
    case ClientMsg(m) => ClientAdds(s.h, ph, m);
  }

  /** What the handler, the line and the server do in a run, and what the clients ask for. */
  function Inner(events: seq<Event>): nat {
    if events == [] then 0 else (if FromClient(events[0]) then 0 else 1) + Inner(events[1..])
  }

  function Asked(events: seq<Event>): nat {
    if events == [] then 0
    else (if events[0].ClientMsg? then Weight(events[0].msg) else 0) + Asked(events[1..])
  }

  lemma {:induction false} SteadyRun(s: Sys, ph: Phase, events: seq<Event>) returns (last: Phase)
    requires Steady(s, ph) && FaultFreeRun(s, events) && AllowedRun(s, events)
    ensures Steady(AfterRun(s, events), last)
    ensures Inner(events) + Work(AfterRun(s, events).h, last) <= Work(s.h, ph) + Asked(events)
    decreases |events|
  {
    hide Steady, FaultFree, Next1, PhaseNext, Work, Weight;
    last := ph;
    if events != [] {
      StepFalls(s, ph, events[0]);
      last := SteadyRun(Next1(s, events[0]), PhaseNext(s, ph, events[0]), events[1..]);
    }
  }

  lemma StartsSteady(s: Sys)
    requires InitialSys(s)
    ensures Steady(s, Rest) && Work(s.h, Rest) == 0
  {
    hide Smooth;
    InitSmooth(s);
  }

  /** In a run without faults, the handler, the line and the server do no more than the clients have asked
      for: 11 events for a file opened, 6 for each block and 3 for each buffer, 2 for a close, 1 for
      anything else. */
  lemma BoundedWork(s: Sys, events: seq<Event>)
    requires InitialSys(s) && FaultFreeRun(s, events)
    ensures Inner(events) <= Asked(events)
  {
    hide Steady, FaultFreeRun, AllowedRun, AfterRun, Work, InitialSys;
    StartsSteady(s);
    FaultFreeAllowed(s, events);
    var last := SteadyRun(s, Rest, events);
  }

  // ---------------------------------------------------------------------------------------
  // Where such runs stop
  // ---------------------------------------------------------------------------------------

  /** Nothing is queued, and every file is still open or has ended. */
  predicate Settled(s: Sys) {
    && s.h.port == []
    && forall i :: 0 <= i < |s.h.transfers| ==> s.h.transfers[i].state == Queued || Ended(s.h.transfers[i])
  }

  lemma RestSettled(s: Sys)
    requires Steady(s, Rest) && s.h.port == []
    ensures Settled(s)
  {
    hide Signals, QueueOk, RestOk, SysInv, AllClean, ErrorsExcused;
    RestInv(s);
    forall i | 0 <= i < |s.h.transfers|
      ensures s.h.transfers[i].state == Queued || Ended(s.h.transfers[i])
    {
      assert !Sent(s.h.transfers[i]);
    }
  }

  lemma RestInv(s: Sys)
    requires Smooth(s, Rest)
    ensures Inv(s.h, Rest)
  {
    hide Inv, Books, ActiveOk, AllClean, ErrorsExcused;
  }

  lemma BusySerial(h: H, ph: Phase)
    requires Inv(h, ph) && ph != Rest && h.port == []
    ensures h.serial.Pending?
  {
    hide QueueOk, OthersOk, XferOk;
  }

  /** The answer the active transfer waits for is on the line. */
  lemma AnswerThere(s: Sys, ph: Phase)
    requires Smooth(s, ph) && ph != Rest && s.h.serial == Pending(OpRead)
    ensures s.line != [] && |s.line[0]| <= 5
  {
    hide Inv, Books, ErrorsExcused, Follows, InStep, AckBytes, ErrorBytes;
    InvActive(s.h, ph);
    ReplySizes(Wire(s.h.transfers[s.h.ioArg.value].blknum));
    ReplySizes(0);
  }

  lemma ReplySizes(b: word)
    ensures |AckBytes(b)| == 4 && |ErrorBytes(ILLEGAL)| == 5
  {
  }

  /** Unless it has settled, the system can go on by itself. */
  lemma GoesFurther(s: Sys, ph: Phase) returns (ev: Event)
    requires Steady(s, ph) && !Settled(s)
    ensures FaultFree(s, ev) && !FromClient(ev)
  {
    hide Inv, PtrOk, Books, ActiveOk, AllClean, ErrorsExcused, Awake, FitsTold, Extract, Image, ImageSize,
         Settled, IsImage;
    if s.h.port != [] {
      ev := Pass(FullPass(s.h));
      PassThere(s, ph);
    } else {
      if ph == Rest {
        RestSettled(s);
      }
      BusySerial(s.h, ph);
      if s.h.serial.op.OpWrite? {
        ev := WriteEnds;
      } else {
        ev := PLAIN_READ;
        AnswerThere(s, ph);
        var rest := ReplyImage(s);
      }
    }
  }

  lemma PassThere(s: Sys, ph: Phase)
    requires Steady(s, ph) && s.h.port != []
    ensures FaultFree(s, Pass(FullPass(s.h)))
  {
    hide Smooth, PtrOk, Awake, Outgoing, Fits, TftpBytes;
    SmoothIsRunning(s, ph);
  }

  lemma SmoothIsRunning(s: Sys, ph: Phase)
    requires Smooth(s, ph)
    ensures s.h.running
  {
    hide SysInv, AllClean, ErrorsExcused;
  }

  /** And when it has settled, it cannot. */
  lemma SettledStops(s: Sys, ph: Phase, ev: Event)
    requires Steady(s, ph) && Settled(s) && FaultFree(s, ev)
    ensures FromClient(ev)
  {
    hide Inv, PtrOk, Books, ActiveOk, AllClean, ErrorsExcused, Awake, FitsTold, Extract, Image, ImageSize, IsImage;
    if ph != Rest {
      InvActive(s.h, ph);
    } else {
      RestSerial(s.h);
    }
  }

  // ---------------------------------------------------------------------------------------
  // Closed files end
  // ---------------------------------------------------------------------------------------

  /** File i has been closed, or will be when its END is handled. */
  predicate Closed(h: H, i: nat) {
    i < |h.transfers| && (h.transfers[i].state != Queued || End(i) in h.port)
  }

  lemma ClosedPass(s: Sys, ph: Phase, net: Net, i: nat)
    requires Steady(s, ph) && FaultFree(s, Pass(net)) && Closed(s.h, i)
    ensures Closed(Handle(s.h, net), i)
  {
    hide Inv, PtrOk, Handle, Books, ActiveOk, AllClean, ErrorsExcused, Orderly, FitsTold, Awake, Work;
    PassFalls(s, ph, net);
    HandleOrdered(s.h, ph, net);
    if s.h.port[0] == End(i) {
      EndCloses(s.h, i, net);
    } else if End(i) in s.h.port {
      assert End(i) in s.h.port[1..];
    }
  }

  lemma EndCloses(h: H, i: nat, net: Net)
    requires PtrOk(h) && h.port != [] && h.port[0] == End(i)
    ensures i < |h.transfers| == |Handle(h, net).transfers| && Handle(h, net).transfers[i].state == Ready
  {
    hide PtrOk, HasInternal;
    HeadPoints(h);
  }

  lemma ClosedStays(s: Sys, ph: Phase, ev: Event, i: nat)
    requires Steady(s, ph) && FaultFree(s, ev) && Closed(s.h, i)
    ensures Closed(Next1(s, ev).h, i)
  {
    hide Smooth, PtrOk, Handle, Orderly, Extract, Image, ImageSize, Arrived, Awake, FitsTold, Readable1;
    if ev.Pass? {
      ClosedPass(s, ph, ev.net, i);
    }
  }

  lemma {:induction false} ClosedRun(s: Sys, ph: Phase, events: seq<Event>, i: nat)
    requires Steady(s, ph) && FaultFreeRun(s, events) && AllowedRun(s, events) && Closed(s.h, i)
    ensures Closed(AfterRun(s, events).h, i)
    decreases |events|
  {
    hide Steady, FaultFree, Next1, PhaseNext, Work, Weight;
    if events != [] {
      StepFalls(s, ph, events[0]);
      ClosedStays(s, ph, events[0], i);
      ClosedRun(Next1(s, events[0]), PhaseNext(s, ph, events[0]), events[1..], i);
    }
  }

  lemma {:induction false} Settles(s: Sys, ph: Phase) returns (more: seq<Event>)
    requires Steady(s, ph)
    ensures FaultFreeRun(s, more) && AllowedRun(s, more) && Settled(AfterRun(s, more))
    ensures |more| <= Work(s.h, ph) && forall k :: 0 <= k < |more| ==> !FromClient(more[k])
    decreases Work(s.h, ph)
  {
    hide Steady, FaultFree, Next1, PhaseNext, Work, Weight, Settled, Allowed;
    more := [];
    if !Settled(s) {
      var ev := GoesFurther(s, ph);
      StepFalls(s, ph, ev);
      FaultFreeIsAllowed(s, ev);
      var rest := Settles(Next1(s, ev), PhaseNext(s, ph, ev));
      more := [ev] + rest;
      assert more[1..] == rest;
    }
  }

  lemma FaultFreeIsAllowed(s: Sys, ev: Event)
    requires FaultFree(s, ev)
    ensures Allowed(s, ev)
  {
    hide Allowed;
  }

  lemma {:induction false} FaultFreeJoin(s: Sys, events: seq<Event>, more: seq<Event>)
    requires FaultFreeRun(s, events) && AllowedRun(s, events) && FaultFreeRun(AfterRun(s, events), more)
    ensures FaultFreeRun(s, events + more)
    decreases |events|
  {
    hide FaultFree, Allowed, Next1;
    if events == [] {
      assert events + more == more;
    } else {
      assert (events + more)[1..] == events[1..] + more;
      FaultFreeJoin(Next1(s, events[0]), events[1..], more);
    }
  }

  /** In a settled state of a run without faults, a closed file of at most 65535 blocks that fit their
      frames has ended well exactly if its buffers have a clean shape. */
  lemma SettledEndsWell(s: Sys, events: seq<Event>, i: nat)
    requires InitialSys(s) && FaultFreeRun(s, events) && AllowedRun(s, events) && Settled(AfterRun(s, events))
    requires Closed(AfterRun(s, events).h, i)
    requires Fitting(Given(s, events, i))
    ensures EndedNormally(AfterRun(s, events), i) <==> CleanShape(Given(s, events, i))
  {
    hide Given, FaultFreeRun, AllowedRun, AfterRun, InitialSys, Fitting, CleanShape, EndedNormally;
    CleanEnd.CleanEnd(s, events, i);
  }

  /** Every run without faults can be completed: with no more events than the clients have asked for, none
      of them a client's, every file that has been closed ends; and one of at most 65535 blocks that fit
      their frames ends well exactly if its buffers have a clean shape. */
  lemma EveryRunEnds(s: Sys, events: seq<Event>) returns (more: seq<Event>)
    requires InitialSys(s) && FaultFreeRun(s, events) && AllowedRun(s, events)
    ensures FaultFreeRun(s, events + more) && AllowedRun(s, events + more)
    ensures |more| + Inner(events) <= Asked(events) && forall k :: 0 <= k < |more| ==> !FromClient(more[k])
    ensures var r := AfterRun(s, events + more);
            && Settled(r)
            && forall i: nat :: Closed(AfterRun(s, events).h, i) ==>
                 && i < |r.h.transfers| && Ended(r.h.transfers[i])
                 && (Fitting(Given(s, events + more, i)) ==>
                       (EndedNormally(r, i) <==> CleanShape(Given(s, events + more, i))))
  {
    hide FaultFreeRun, AllowedRun, AfterRun, InitialSys, Steady, Work, Fitting, CleanShape, EndedNormally, Given;
    StartsSteady(s);
    var ph := SteadyRun(s, Rest, events);
    var a := AfterRun(s, events);
    more := Settles(a, ph);
    FaultFreeJoin(s, events, more);
    RunsJoin(s, events, more);
    var r := AfterRun(s, events + more);
    forall i: nat | Closed(a.h, i)
      ensures i < |r.h.transfers| && Ended(r.h.transfers[i])
      ensures Fitting(Given(s, events + more, i)) ==>
                (EndedNormally(r, i) <==> CleanShape(Given(s, events + more, i)))
    {
      ClosedRun(a, ph, more, i);
      if Fitting(Given(s, events + more, i)) {
        SettledEndsWell(s, events + more, i);
      }
    }
  }
}

/** Exactly when the one internal packet is sent while it is still queued, in any run at all: the message
    that makes the handler send it can be told before it is handled. */
module Reuse {
  import opened Bytes
  import opened Messages
  import opened Packets
  import opened Engine
  import opened Files
  import opened Ownership
  import opened Effects
  import opened Delivery
  import opened SelfStop
  import opened Untimely

  // ---------------------------------------------------------------------------------------
  // Counting internal messages
  // ---------------------------------------------------------------------------------------

  /** The internal messages in a queue. */
  function Internals(q: seq<Msg<nat>>): nat {
    if q == [] then 0 else (if Internal(q[0]) then 1 else 0) + Internals(q[1..])
  }

  lemma {:induction false} InternalsConcat(a: seq<Msg<nat>>, b: seq<Msg<nat>>)
    ensures Internals(a + b) == Internals(a) + Internals(b)
  {
    if a == [] {
      assert a + b == b;
    } else {
      assert (a + b)[1..] == a[1..] + b;
      InternalsConcat(a[1..], b);
    }
  }

  lemma {:induction false} HasSome(q: seq<Msg<nat>>)
    ensures HasInternal(q) <==> Internals(q) > 0
  {
    if q != [] {
      HasSome(q[1..]);
    }
  }

  lemma {:induction false} InternalsWithout(q: seq<Msg<nat>>, k: Kind)
    requires k != Active && k != Wake
    ensures Internals(Without(q, k)) == Internals(q)
  {
    if q != [] {
      InternalsWithout(q[1..], k);
      InternalsConcat([q[0]], Without(q[1..], k));
    }
  }

  /** From h to r the handler sends n internal messages; those of clients stay where they are, and no
      internal one is lost. */
  predicate Posts(h: H, r: H, n: nat) {
    && (forall m :: m in h.port && Internal(m) ==> m in r.port)
    && Internals(r.port) == Internals(h.port) + n && Of(r.port, Client) == Of(h.port, Client)
    && (r.reused <==> h.reused || (n > 0 && Internals(h.port) + n > 1))
  }

  lemma SendsNothing(h: H, r: H)
    requires r.port == h.port && r.reused == h.reused
    ensures Posts(h, r, 0)
  {
  }

  lemma SendsTwice(h: H, a: H, r: H, n: nat, m: nat)
    requires Posts(h, a, n) && Posts(a, r, m)
    ensures Posts(h, r, n + m)
  {
  }

  lemma SendsOne(h: H, m: Msg<nat>)
    requires Internal(m)
    ensures Posts(h, SendInternal(h, m), 1)
  {
    InternalsConcat(h.port, [m]);
    assert [m][1..] == [];
    HasSome(h.port);
    OfAppend(h.port, m);
  }

  lemma SendsVia(h: H, a: H, m: Msg<nat>)
    requires Internal(m) && a.port == h.port && a.reused == h.reused
    ensures Posts(h, SendInternal(a, m), 1)
  {
    hide Posts, SendInternal;
    SendsOne(a, m);
    SendsNothing(h, a);
    SendsTwice(h, a, SendInternal(a, m), 0, 1);
  }

  lemma FailSends(h: H, i: nat, error: nat)
    requires i < |h.transfers|
    ensures Posts(h, Fail(h, i, error), 1) && |Fail(h, i, error).transfers| == |h.transfers|
  {
    hide Posts, HasInternal;
    SendsVia(h, SetFtx(h, i, h.transfers[i].(state := Error, error := error)).(busy := false), FileFailed(i));
  }

  lemma StopTimerSends(h: H)
    ensures Posts(h, StopTimer(h), 0)
  {
    InternalsWithout(h.port, Timer);
    WithoutMembers(h.port, Timer);
    OfWithout(h.port, Timer);
  }

  lemma AbandonSends(h: H)
    ensures Posts(h, Abandon(h), 0)
  {
    InternalsWithout(h.port, Kind.Serial);
    WithoutMembers(h.port, Kind.Serial);
    OfWithout(h.port, Kind.Serial);
  }

  // ---------------------------------------------------------------------------------------
  // The replies
  // ---------------------------------------------------------------------------------------

  function One(b: bool): nat {
    if b then 1 else 0
  }

  lemma StatusSends(h: H, i: nat)
    requires i < |h.transfers|
    ensures Posts(h, TakeStatus(h, i), One(h.serial.Replied? && h.serial.status > 0))
    ensures |TakeStatus(h, i).transfers| == |h.transfers|
  {
    hide Fail, Posts;
    if h.serial.Replied? && h.serial.status > 0 {
      var h1 := h.(serial := Idle);
      FailSends(h1, i, h.serial.status);
      SendsNothing(h, h1);
      SendsTwice(h, h1, Fail(h1, i, h.serial.status), 0, 1);
    } else {
      SendsNothing(h, TakeStatus(h, i));
    }
  }

  lemma ReadSends(h: H, i: nat, mem: bool)
    requires i < |h.transfers|
    ensures Posts(h, StartRead(h, i, mem), One(!mem))
  {
    hide Fail, Posts;
    var h1 := h.(ioType := ReadReturn);
    SendsNothing(h, h1);
    if mem {
      SendsNothing(h, StartRead(h, i, mem));
    } else {
      FailSends(h1, i, ERROR_NO_FREE_STORE);
      SendsTwice(h, h1, StartRead(h, i, mem), 0, 1);
    }
  }

  /** The messages sent for the completion of a write. */
  function WriteCount(h: H, mem: bool): nat {
    One(h.serial.Replied? && h.serial.status > 0) + One(!mem)
  }

  lemma WriteReturnSends(h: H, i: nat, mem: bool)
    requires i < |h.transfers|
    ensures Posts(h, DoWriteReturn(h, i, mem), WriteCount(h, mem))
  {
    hide Posts, TakeStatus, StartRead, Without;
    var h1 := StopTimer(h);
    var h2 := TakeStatus(h1, i);
    StopTimerSends(h);
    StatusSends(h1, i);
    ReadSends(h2, i, mem);
    SendsTwice(h, h1, h2, 0, One(h.serial.Replied? && h.serial.status > 0));
    SendsTwice(h, h2, StartRead(h2, i, mem), One(h.serial.Replied? && h.serial.status > 0), One(!mem));
  }

  lemma PacketSends(h: H, i: nat, x: Extracted)
    requires i < |h.transfers|
    ensures Posts(h, TakePacket(h, i, x), One(x.Rejected?))
  {
    hide Fail, Posts, Overlay;
    match x
    case Payload(_) => SendsNothing(h, TakePacket(h, i, x));
    case Rejected(errno) => FailSends(h, i, errno);
  }

  /** The messages the opcode switch sends. */
  function SwitchCount(t: Ftx, tftppkt: seq<byte>): nat
    requires |tftppkt| >= 4
  {
    if GetOpcode(tftppkt) != OP_ACK then 1
    else
      match t.state
      case WrqSent => 1
      case DataSent => One(GetBlknum(tftppkt) != t.blknum || (t.buffers != [] && InBounds(t.buffers[0])))
      case _ => 0
  }

  lemma AckedSends(h: H, i: nat)
    requires i < |h.transfers|
    ensures var t := h.transfers[i]; Posts(h, DoAcked(h, i), One(t.buffers != [] && InBounds(t.buffers[0])))
  {
    hide Posts, SendInternal, InBounds, Chunk;
    var t := h.transfers[i];
    if t.buffers != [] && InBounds(t.buffers[0]) {
      var b1 := t.buffers[0].(left := t.buffers[0].left - TFTP_MAX_DATA_SIZE);
      var h1 := SetFtx(h, i, Acked(t));
      SendsVia(h, h1, if b1.left > 0 then ContinueBuffer(i) else BufferFinished(i));
    } else {
      SendsNothing(h, DoAcked(h, i));
    }
  }

  lemma SwitchSends(h: H, i: nat)
    requires i < |h.transfers| && |h.tftppkt| >= 4
    ensures Posts(h, DoReply(h, i), SwitchCount(h.transfers[i], h.tftppkt))
  {
    hide Fail, Posts, DoAcked, SendInternal, GetOpcode, GetBlknum, InBounds;
    FailSends(h, i, ERROR_TFTP_GENERIC_ERROR);
    FailSends(h, i, ERROR_TFTP_UNKNOWN_OPCODE);
    FailSends(h, i, ERROR_TFTP_WRONG_BLOCK_NUM);
    AckedSends(h, i);
    SendsOne(h, SendNextBuffer(i));
    SendsNothing(h, h.(busy := false, running := false));
  }

  /** The messages sent for the completion of a read: an I/O error and data that cannot be extracted each
      fail the file, and after either the switch finds the file failed. */
  function ReadCount(h: H, i: nat, mem: bool): nat
    requires i < |h.transfers| && |h.tftppkt| >= 4
  {
    if !HasData(h.serial) then 0
    else
      var broken := One(h.serial.status > 0) + One(Seen(h, mem).Rejected?);
      if broken == 0 then SwitchCount(h.transfers[i], Examined(h, mem))
      else broken + One(GetOpcode(Examined(h, mem)) != OP_ACK)
  }

  lemma OpenedSends(h: H, i: nat, mem: bool)
    requires i < |h.transfers| && h.serial.Replied?
    ensures Posts(h, Opened(h, i, mem), One(h.serial.status > 0) + One(Seen(h, mem).Rejected?))
  {
    hide Posts, TakeStatus, TakePacket, Without, One;
    var h1 := StopTimer(h);
    var h2 := TakeStatus(h1, i);
    StopTimerSends(h);
    StatusSends(h1, i);
    PacketSends(h2, i, Seen(h, mem));
    SendsTwice(h, h1, h2, 0, One(h.serial.status > 0));
    SendsTwice(h, h2, Opened(h, i, mem), One(h.serial.status > 0), One(Seen(h, mem).Rejected?));
  }

  lemma OpenedSwitch(h: H, i: nat, mem: bool)
    requires i < |h.transfers| && HasData(h.serial) && |h.tftppkt| >= 4
    ensures ReadCount(h, i, mem) == One(h.serial.status > 0) + One(Seen(h, mem).Rejected?) +
                                    SwitchCount(Opened(h, i, mem).transfers[i], Opened(h, i, mem).tftppkt)
  {
    hide Opened, Examined, GetOpcode, GetBlknum, InBounds;
    OpenedPacket(h, i, mem);
    if h.serial.status > 0 || Seen(h, mem).Rejected? {
      OpenedFailed(h, i, mem);
    } else {
      OpenedGood(h, i);
    }
  }

  lemma ReadReturnSends(h: H, i: nat, mem: bool)
    requires PtrOk(h) && i < |h.transfers|
    ensures Posts(h, DoReadReturn(h, i, mem), ReadCount(h, i, mem))
  {
    hide Posts, SwitchCount, Opened, DoReply, TakePacket, TakeStatus, Examined, Without;
    if HasData(h.serial) {
      var a := Opened(h, i, mem);
      OpenedSends(h, i, mem);
      OpenedSwitch(h, i, mem);
      ReadReturnIs(h, i, mem);
      SwitchSends(a, i);
      SendsTwice(h, a, DoReply(a, i), One(h.serial.status > 0) + One(Seen(h, mem).Rejected?),
                 SwitchCount(a.transfers[i], a.tftppkt));
    } else {
      StopTimerSends(h);
      SendsNothing(StopTimer(h), DoReadReturn(h, i, mem));
      SendsTwice(h, StopTimer(h), DoReadReturn(h, i, mem), 0, 0);
    }
  }

  // ---------------------------------------------------------------------------------------
  // A pass
  // ---------------------------------------------------------------------------------------

  /** The internal messages sent for a message that is not one itself. */
  function Count(h: H, net: Net): nat
    requires PtrOk(h) && h.port != []
  {
    match h.port[0]
    case Write(_, _) => One(!net.mem)
    case End(_) => 1
    case TimerReply => One(h.local.Some?)
    case SerialReply =>
      if h.ioArg.None? then 0
      else
        (match h.ioType
         case WriteReturn => WriteCount(h, net.mem)
         case ReadReturn => ReadCount(h, h.ioArg.value, net.mem)
         case NoIo => 0)
    case _ => 0
  }

  lemma WriteSends(h: H, i: nat, bytes: seq<byte>, mem: bool)
    requires i < |h.transfers|
    ensures Posts(h, DoWrite(h, i, bytes, mem), One(!mem))
  {
    hide Posts, SendInternal, FreshBuf;
    if mem {
      SendsNothing(h, DoWrite(h, i, bytes, mem));
    } else {
      SendsVia(h, SetFtx(h, i, h.transfers[i].(state := Error, error := ERROR_NO_FREE_STORE)), FileFailed(i));
    }
  }

  lemma EndSends(h: H, i: nat)
    requires i < |h.transfers|
    ensures Posts(h, DoEnd(h, i), 1)
  {
    hide Posts, SendInternal;
    SendsVia(h, SetFtx(h, i, h.transfers[i].(state := Ready)).(local := Some(i)), SendNextFile);
  }

  lemma OpenSends(h: H, name: CString, mem: bool)
    ensures Posts(h, DoFindOutput(h, name, mem), 0)
  {
    hide Posts, NewFtx;
    SendsNothing(h, DoFindOutput(h, name, mem));
  }

  lemma ClientCounts(h: H, net: Net)
    requires PtrOk(h) && h.port != [] && KindOf(h.port[0]) == Client
    ensures Posts(Rest1(h), Handle(h, net), Count(h, net))
  {
    hide Posts, PtrOk, Abort, DoWrite, DoEnd, DoFindOutput;
    HeadPoints(h);
    var h1 := Rest1(h);
    match h.port[0]
    case FindOutput(name) => OpenSends(h1, name, net.mem);
    case Write(i, bytes) => WriteSends(h1, i, bytes, net.mem);
    case End(i) => EndSends(h1, i);
    case Die => AbortSends(h1, Handle(h, net));
    case Other => SendsNothing(h1, h1);
  }

  lemma AbortSends(h: H, r: H)
    requires r == Abort(h).(running := false)
    ensures Posts(h, r, 0)
  {
    InternalsWithout(h.port, Kind.Serial);
    WithoutMembers(h.port, Kind.Serial);
    OfWithout(h.port, Kind.Serial);
  }

  lemma ReplyCounts(h: H, net: Net)
    requires PtrOk(h) && h.port != [] && h.port[0] == SerialReply
    ensures Posts(Rest1(h), Handle(h, net), Count(h, net))
  {
    hide Posts, PtrOk, DoWriteReturn, DoReadReturn, ReadCount;
    HeadPoints(h);
    ArgPoints(h);
    var h1, r := Rest1(h), Handle(h, net);
    if h.ioArg.None? || h.ioType == NoIo {
      SendsNothing(h1, r);
    } else if h.ioType == WriteReturn {
      WriteReturnSends(h1, h.ioArg.value, net.mem);
    } else {
      ReadReturnSends(h1, h.ioArg.value, net.mem);
      SameCount(h, h.ioArg.value, net.mem);
    }
  }

  lemma SameCount(h: H, i: nat, mem: bool)
    requires h.port != [] && i < |h.transfers| && |h.tftppkt| >= 4
    ensures ReadCount(Rest1(h), i, mem) == ReadCount(h, i, mem)
  {
    hide Examined, SwitchCount;
    if h.serial.Replied? {
      SameExamined(h, mem);
    }
  }

  lemma TimerCounts(h: H, net: Net)
    requires PtrOk(h) && h.port != [] && h.port[0] == TimerReply
    ensures Posts(Rest1(h), Handle(h, net), Count(h, net))
  {
    hide Posts, PtrOk, Fail, Abort;
    HeadPoints(h);
    var h1, r := Rest1(h), Handle(h, net);
    AbandonSends(h1);
    if h.local.Some? {
      FailSends(Abandon(h1), h.local.value, ERROR_IO_TIMEOUT);
      SendsTwice(h1, Abandon(h1), r, 0, 1);
    } else {
      SendsNothing(Abandon(h1), r);
      SendsTwice(h1, Abandon(h1), r, 0, 0);
    }
  }

  lemma OutsideSends(h: H, net: Net)
    requires PtrOk(h) && h.port != [] && !Internal(h.port[0])
    ensures Posts(Rest1(h), Handle(h, net), Count(h, net))
  {
    hide Posts, PtrOk, Handle, Count;
    match KindOf(h.port[0])
    case Client => ClientCounts(h, net);
    case Serial => ReplyCounts(h, net);
    case Timer => TimerCounts(h, net);
  }

  lemma SendSends(h: H, i: nat, p: Packet, next: FileState, net: Net)
    requires i < |h.transfers|
    ensures Posts(h, Send(h, i, p, next, net), One(SendError(net) != 0))
  {
    hide Posts, Fail, SendError;
    if SendError(net) == 0 {
      var h1 := SetFtx(StartIo(h, OpWrite(p)), i, h.transfers[i].(state := next));
      SendsNothing(h, h1);
    } else {
      FailSends(h, i, SendError(net));
    }
  }

  /** At most one message is sent from h to r. */
  predicate AtMostOne(h: H, r: H) {
    Posts(h, r, 0) || Posts(h, r, 1)
  }

  lemma AtMostVia(h: H, a: H, r: H)
    requires a.port == h.port && a.reused == h.reused && AtMostOne(a, r)
    ensures AtMostOne(h, r)
  {
  }

  lemma ChunkSends(h: H, i: nat, net: Net)
    requires i < |h.transfers| && h.transfers[i].buffers != []
    ensures AtMostOne(h, SendChunk(h, i, net))
  {
    hide AtMostOne, Posts, Send, Chunk, InBounds;
    var t, r := h.transfers[i], SendChunk(h, i, net);
    if InBounds(t.buffers[0]) {
      var h1 := SetFtx(h, i, t.(blknum := (t.blknum + 1) % TWO32)).(ioType := WriteReturn);
      var p := Data((t.blknum + 1) % TWO32 % 0x10000, Chunk(t.buffers[0]));
      SendSends(h1, i, p, DataSent, net);
      AtMostIs(h1, r);
      AtMostVia(h, h1, r);
    } else {
      SendsNothing(h, r);
      AtMostIs(h, r);
    }
  }

  lemma AtMostIs(h: H, r: H)
    requires Posts(h, r, 0) || Posts(h, r, 1)
    ensures AtMostOne(h, r)
  {
  }

  lemma InsideSends(h: H, net: Net)
    requires PtrOk(h) && h.port != [] && Internal(h.port[0])
    ensures AtMostOne(Rest1(h), Handle(h, net))
  {
    hide AtMostOne, Posts, PtrOk, DoSendNextBuffer, DoContinueBuffer, DoBufferFinished, DoFileDone, DoSendNextFile;
    HeadPoints(h);
    var h1 := Rest1(h);
    match h.port[0]
    case SendNextFile => PickSends(h1, net);
    case SendNextBuffer(i) => NextSends(h1, i, net);
    case ContinueBuffer(i) => ContinueSends(h1, i, net);
    case BufferFinished(i) => ReleaseSends(h1, i);
    case FileFinished(i) => DoneSends(h1, i);
    case FileFailed(i) => DoneSends(h1, i);
  }

  lemma PickSends(h: H, net: Net)
    ensures AtMostOne(h, DoSendNextFile(h, net))
  {
    hide AtMostOne, Posts, Send, NextReady;
    var r := DoSendNextFile(h, net);
    if h.busy || NextReady(h.transfers, 0) == None {
      SendsNothing(h, r);
      AtMostIs(h, r);
    } else {
      var i := NextReady(h.transfers, 0).value;
      SendSends(Picked(h, i), i, Wrq(h.transfers[i].name), WrqSent, net);
      AtMostIs(Picked(h, i), r);
      AtMostVia(h, Picked(h, i), r);
    }
  }

  lemma NextSends(h: H, i: nat, net: Net)
    requires i < |h.transfers|
    ensures AtMostOne(h, DoSendNextBuffer(h, i, net))
  {
    hide AtMostOne, Posts, SendChunk, SendInternal;
    var t, h1, r := h.transfers[i], h.(local := Some(i)), DoSendNextBuffer(h, i, net);
    if t.buffers != [] {
      ChunkSends(h1, i, net);
      AtMostVia(h, h1, r);
    } else {
      SendsVia(h, SetFtx(h1, i, t.(state := Finished)).(busy := false), FileFinished(i));
      AtMostIs(h, r);
    }
  }

  lemma ContinueSends(h: H, i: nat, net: Net)
    requires i < |h.transfers|
    ensures AtMostOne(h, DoContinueBuffer(h, i, net))
  {
    hide AtMostOne, Posts, SendChunk;
    var t, h1, r := h.transfers[i], h.(local := Some(i)), DoContinueBuffer(h, i, net);
    if t.buffers != [] {
      var h2 := SetFtx(h1, i, Advanced(t));
      ChunkSends(h2, i, net);
      AtMostVia(h, h2, r);
    } else {
      SendsNothing(h, r);
      AtMostIs(h, r);
    }
  }

  lemma ReleaseSends(h: H, i: nat)
    requires i < |h.transfers|
    ensures AtMostOne(h, DoBufferFinished(h, i))
  {
    hide AtMostOne, Posts, SendInternal;
    var t, h1, r := h.transfers[i], h.(local := Some(i)), DoBufferFinished(h, i);
    if t.buffers != [] {
      SendsVia(h, SetFtx(h1, i, t.(buffers := t.buffers[1..])), SendNextBuffer(i));
    } else {
      SendsNothing(h, r);
    }
    AtMostIs(h, r);
  }

  lemma DoneSends(h: H, i: nat)
    requires i < |h.transfers|
    ensures AtMostOne(h, DoFileDone(h, i))
  {
    hide AtMostOne, Posts, SendInternal, Unacked;
    var t := h.transfers[i];
    SendsVia(h, SetFtx(h, i, t.(buffers := [], dropped := t.dropped + Unacked(t.buffers))).(local := Some(i)),
             SendNextFile);
    AtMostIs(h, DoFileDone(h, i));
  }

  // ---------------------------------------------------------------------------------------
  // Runs
  // ---------------------------------------------------------------------------------------

  /** A pass that sends the internal packet while it is queued: the message handled is not the packet
      itself, and with those already queued there would be two. */
  predicate Overwrites(h: H, mv: Move) {
    && mv.Step? && PtrOk(h) && h.port != [] && !Internal(h.port[0])
    && Count(h, mv.net) > 0 && Internals(h.port) + Count(h, mv.net) > 1
  }

  predicate Spares(h: H, mv: Move) {
    !Overwrites(h, mv)
  }

  /** The packet is queued at most once as long as it has not been overwritten. */
  predicate Single(h: H) {
    !h.reused ==> Internals(h.port) <= 1
  }

  lemma StepReuses(h: H, mv: Move)
    requires PtrOk(h) && Possible(h, mv) && Single(h)
    ensures Single(Apply(h, mv)) && (Apply(h, mv).reused <==> h.reused || Overwrites(h, mv))
  {
    hide PtrOk, Handle, Count;
    match mv
    case Step(net) =>
      if Internal(h.port[0]) {
        InsideSends(h, net);
      } else {
        OutsideSends(h, net);
      }
    case ClientSends(m) => InternalsConcat(h.port, [m]); assert [m][1..] == [];
    case WriteDone(_) => InternalsConcat(h.port, [SerialReply]);
    case ReadDone(_, _) => InternalsConcat(h.port, [SerialReply]);
    case TimerFires => InternalsConcat(h.port, [TimerReply]);
  }

  lemma {:induction false} RunReuses(h: H, moves: seq<Move>)
    requires PtrOk(h) && PossibleRun(h, moves) && Single(h)
    ensures After(h, moves).reused <==> h.reused || !Throughout(h, moves, Spares)
    ensures Single(After(h, moves))
    decreases |moves|
  {
    hide PtrOk, Apply, Single, Overwrites;
    if moves != [] {
      StepReuses(h, moves[0]);
      RunReuses(Apply(h, moves[0]), moves[1..]);
    }
  }

  /** In any run at all, the internal packet is sent while still queued exactly if some pass handles one of
      these: END, a write without memory or a timeout while an internal message is queued, or a completion
      that leads to two internal messages, or to one while one is queued. Otherwise at most one internal
      message is ever queued. */
  lemma ReusedExact(h: H, moves: seq<Move>)
    requires Initial(h) && PossibleRun(h, moves)
    ensures After(h, moves).reused <==> !Throughout(h, moves, Spares)
    ensures !After(h, moves).reused ==> Internals(After(h, moves).port) <= 1
  {
    RunReuses(h, moves);
  }

  // ---------------------------------------------------------------------------------------
  // A run in which it happens
  // ---------------------------------------------------------------------------------------

  /** Both files closed, and the first SEND_NEXT_FILE not handled yet. */
  function Twice(pkt: seq<byte>): H {
    H([SendNextFile, SendNextFile], true, false, [File(Ready, 0), File(Ready, 0)], NoIo, None, Some(1),
      Idle, Stopped, pkt, [], true, false, false, false)
  }

  lemma ClosingFirst(pkt: seq<byte>)
    requires |pkt| >= 4
    ensures var h := Idling(pkt, [End(0), End(1)], [File(Queued, 0), File(Queued, 0)], None);
            && PtrOk(h)
            && Handle(h, FULL) == Idling(pkt, [End(1), SendNextFile], [File(Ready, 0), File(Queued, 0)], Some(0))
  {
    var h := Idling(pkt, [End(0), End(1)], [File(Queued, 0), File(Queued, 0)], None);
    assert h.port[1..] == [End(1)] && [End(1)][1..] == [] && !HasInternal([End(1)]);
    assert h.transfers[0 := File(Ready, 0)] == [File(Ready, 0), File(Queued, 0)];
  }

  lemma ClosingSecond(pkt: seq<byte>)
    requires |pkt| >= 4
    ensures var h := Idling(pkt, [End(1), SendNextFile], [File(Ready, 0), File(Queued, 0)], Some(0));
            PtrOk(h) && PtrOk(Twice(pkt)) && Handle(h, FULL) == Twice(pkt)
  {
    var h := Idling(pkt, [End(1), SendNextFile], [File(Ready, 0), File(Queued, 0)], Some(0));
    assert h.port[1..] == [SendNextFile] && HasInternal([SendNextFile]);
    assert h.transfers[1 := File(Ready, 0)] == [File(Ready, 0), File(Ready, 0)];
  }

  lemma ClosedTwice(h: H)
    requires Initial(h)
    ensures Reaches(h, Twice(h.tftppkt))
  {
    hide PtrOk, Handle, Reaches, File;
    var p, q := h.tftppkt, File(Queued, 0);
    var r, two := Twice(p), [q, q];
    FileState1();
    IdlePoint(p);
    ClosingFirst(p);
    ClosingSecond(p);
    ReachesSelf(r);
    ReachesOn(Idling(p, [End(1), SendNextFile], [File(Ready, 0), q], Some(0)), Step(FULL), r, r);
    ReachesOn(Idling(p, [End(0), End(1)], two, None), Step(FULL),
              Idling(p, [End(1), SendNextFile], [File(Ready, 0), q], Some(0)), r);
    EndPoints(p);
    ReachesOn(Idling(p, [End(0)], two, None), ClientSends(End(1)), Idling(p, [End(0), End(1)], two, None), r);
    ReachesOn(Idling(p, [], two, None), ClientSends(End(0)), Idling(p, [End(0)], two, None), r);
    TwoOpen(h, r);
  }

  lemma EndPoints(pkt: seq<byte>)
    requires |pkt| >= 4
    ensures PtrOk(Idling(pkt, [End(0)], [File(Queued, 0), File(Queued, 0)], None))
  {
  }

  /** Outside sequential runs it does happen: an orderly run in which two clients close their files before
      the first of the messages this leads to is handled. */
  lemma PacketReused(h: H) returns (moves: seq<Move>)
    requires Initial(h)
    ensures PossibleRun(h, moves) && Throughout(h, moves, Orderly) && After(h, moves).reused
  {
    ClosedTwice(h);
    hide PossibleRun, Throughout, After, Orderly, PtrOk;
    moves :| PossibleRun(h, moves) && Throughout(h, moves, Orderly) && After(h, moves) == Twice(h.tftppkt);
  }
}

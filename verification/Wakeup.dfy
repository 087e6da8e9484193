/** No ready file is ever forgotten: this holds of every run, whatever goes wrong in it. */
module Wakeup {
  import opened Bytes
  import opened Messages
  import opened Packets
  import opened Engine

  predicate AnyReady(ts: seq<Ftx>) {
    exists j :: 0 <= j < |ts| && ts[j].state == Ready
  }

  predicate AnyWake(q: seq<Msg<nat>>) {
    exists m :: m in q && KindOf(m) == Wake
  }

  /** While the link is free, a ready file has a message at the port that will get it picked. */
  predicate Awake(h: H) {
    h.running && !h.busy && AnyReady(h.transfers) ==> AnyWake(h.port)
  }

  /** Part of a pass leads from h to r: it leaves a wakeup behind, ends the handler or keeps the link,
      or else neither loses a wakeup nor makes a file ready. */
  predicate Calm(h: H, r: H) {
    || AnyWake(r.port) || !r.running || r.busy
    || (!h.busy && !AnyWake(h.port) && (AnyReady(r.transfers) ==> AnyReady(h.transfers)))
  }

  lemma CalmTwice(h: H, a: H, b: H)
    requires Calm(h, a) && Calm(a, b) && a.running
    ensures Calm(h, b)
  {
  }

  lemma WakeAppended(q: seq<Msg<nat>>, m: Msg<nat>)
    ensures AnyWake(q + [m]) <==> AnyWake(q) || KindOf(m) == Wake
  {
    if AnyWake(q) {
      var w :| w in q && KindOf(w) == Wake;
      assert w in q + [m];
    }
    assert m in q + [m];
  }

  lemma WakeTail(q: seq<Msg<nat>>)
    requires q != []
    ensures AnyWake(q) <==> KindOf(q[0]) == Wake || AnyWake(q[1..])
  {
    WakeAppended([], q[0]);
    if AnyWake(q) {
      var w :| w in q && KindOf(w) == Wake;
      assert w == q[0] || w in q[1..];
    }
    if AnyWake(q[1..]) {
      var w :| w in q[1..] && KindOf(w) == Wake;
      assert w in q;
    }
  }

  lemma WakeWithout(q: seq<Msg<nat>>, k: Kind)
    requires k != Wake
    ensures AnyWake(Without(q, k)) <==> AnyWake(q)
  {
    WithoutMembers(q, k);
  }

  lemma ReadyAfter(ts: seq<Ftx>, i: nat, t: Ftx)
    requires i < |ts| && t.state != Ready
    ensures AnyReady(ts[i := t]) ==> AnyReady(ts)
  {
    if AnyReady(ts[i := t]) {
      var j :| 0 <= j < |ts| && ts[i := t][j].state == Ready;
      assert ts[j].state == Ready;
    }
  }

  /** Every failure leaves a FILE_FAILED packet behind. */
  lemma FailWakes(h: H, i: nat, error: nat)
    requires i < |h.transfers|
    ensures AnyWake(Fail(h, i, error).port)
  {
    WakeAppended(h.port, FileFailed(i));
  }

  lemma SendCalm(h: H, i: nat, p: Packet, next: FileState, net: Net)
    requires i < |h.transfers| && next != Ready
    ensures Calm(h, Send(h, i, p, next, net))
  {
    if SendError(net) != 0 {
      FailWakes(h, i, SendError(net));
    } else {
      ReadyAfter(h.transfers, i, h.transfers[i].(state := next));
    }
  }

  lemma SendChunkCalm(h: H, i: nat, net: Net)
    requires i < |h.transfers| && h.transfers[i].buffers != []
    ensures Calm(h, SendChunk(h, i, net))
  {
    hide Send;
    var t := h.transfers[i];
    var t1 := t.(blknum := (t.blknum + 1) % TWO32);
    if InBounds(t.buffers[0]) {
      var h1 := SetFtx(h, i, t1).(ioType := WriteReturn);
      SendCalm(h1, i, Data(t1.blknum % 0x10000, Chunk(t.buffers[0])), DataSent, net);
      SameReady(h.transfers, i, t1);
    }
  }

  lemma SameReady(ts: seq<Ftx>, i: nat, t: Ftx)
    requires i < |ts| && t.state == ts[i].state
    ensures AnyReady(ts[i := t]) ==> AnyReady(ts)
  {
    if AnyReady(ts[i := t]) {
      var j :| 0 <= j < |ts| && ts[i := t][j].state == Ready;
      assert ts[j].state == Ready;
    }
  }

  lemma NextBufferCalm(h: H, i: nat, net: Net)
    requires i < |h.transfers|
    ensures Calm(h, DoSendNextBuffer(h, i, net))
  {
    hide SendChunk;
    if h.transfers[i].buffers != [] {
      SendChunkCalm(h.(local := Some(i)), i, net);
    } else {
      WakeAppended(h.port, FileFinished(i));
    }
  }

  lemma ContinueCalm(h: H, i: nat, net: Net)
    requires i < |h.transfers|
    ensures Calm(h, DoContinueBuffer(h, i, net))
  {
    hide SendChunk;
    var t := h.transfers[i];
    if t.buffers != [] {
      var b := t.buffers[0].(curpos := t.buffers[0].curpos + TFTP_MAX_DATA_SIZE);
      var t1 := t.(buffers := [b] + t.buffers[1..]);
      SameReady(h.transfers, i, t1);
      SendChunkCalm(SetFtx(h.(local := Some(i)), i, t1), i, net);
    }
  }

  lemma BufferFinishedCalm(h: H, i: nat)
    requires i < |h.transfers|
    ensures Calm(h, DoBufferFinished(h, i))
  {
    var t := h.transfers[i];
    if t.buffers != [] {
      SameReady(h.transfers, i, t.(buffers := t.buffers[1..]));
      WakeAppended(h.port, SendNextBuffer(i));
    }
  }

  lemma StopTimerCalm(h: H)
    ensures Calm(h, StopTimer(h)) && StopTimer(h).running == h.running
    ensures StopTimer(h).transfers == h.transfers && StopTimer(h).tftppkt == h.tftppkt
  {
    WakeWithout(h.port, Timer);
  }

  lemma TakeStatusCalm(h: H, i: nat)
    requires i < |h.transfers| && h.serial.Replied?
    ensures Calm(h, TakeStatus(h, i)) && TakeStatus(h, i).running == h.running
    ensures |TakeStatus(h, i).transfers| == |h.transfers| && TakeStatus(h, i).tftppkt == h.tftppkt
  {
    if h.serial.status > 0 {
      FailWakes(h.(serial := Idle), i, h.serial.status);
    }
  }

  lemma AckedCalm(h: H, i: nat)
    requires i < |h.transfers|
    ensures Calm(h, DoAcked(h, i))
  {
    var t := h.transfers[i];
    WakeAppended(h.port, ContinueBuffer(i));
    WakeAppended(h.port, BufferFinished(i));
    if t.buffers != [] && InBounds(t.buffers[0]) {
      var b := t.buffers[0].(left := t.buffers[0].left - TFTP_MAX_DATA_SIZE);
      SameReady(h.transfers, i, t.(buffers := [b] + t.buffers[1..], acked := t.acked + [Chunk(t.buffers[0])]));
    }
  }

  lemma FailCalm(h: H, i: nat, error: nat)
    requires i < |h.transfers|
    ensures Calm(h, Fail(h, i, error))
  {
    FailWakes(h, i, error);
  }

  lemma AckCalm(h: H, i: nat, blknum: word)
    requires i < |h.transfers|
    ensures Calm(h, DoAck(h, i, blknum))
  {
    hide DoAcked, Fail;
    AckedCalm(h, i);
    FailCalm(h, i, ERROR_TFTP_WRONG_BLOCK_NUM);
    WakeAppended(h.port, SendNextBuffer(i));
  }

  lemma ReplyCalm(h: H, i: nat)
    requires i < |h.transfers| && |h.tftppkt| >= 4
    ensures Calm(h, DoReply(h, i))
  {
    hide DoAck, Fail, Calm;
    AckCalm(h, i, GetBlknum(h.tftppkt));
    FailCalm(h, i, ERROR_TFTP_GENERIC_ERROR);
    FailCalm(h, i, ERROR_TFTP_UNKNOWN_OPCODE);
  }

  lemma PacketCalm(h: H, i: nat, x: Extracted)
    requires i < |h.transfers|
    ensures Calm(h, TakePacket(h, i, x)) && TakePacket(h, i, x).running == h.running
  {
    if x.Rejected? {
      FailWakes(h, i, x.errno);
    }
  }

  lemma StartReadCalm(h: H, i: nat, mem: bool)
    requires i < |h.transfers|
    ensures Calm(h, StartRead(h, i, mem))
  {
    if !mem {
      FailWakes(h.(ioType := ReadReturn), i, ERROR_NO_FREE_STORE);
    }
  }

  lemma WriteReturnCalm(h: H, i: nat, mem: bool)
    requires i < |h.transfers| && h.running
    ensures Calm(h, DoWriteReturn(h, i, mem))
  {
    hide Calm, StopTimer, TakeStatus, StartRead;
    var h1 := StopTimer(h);
    StopTimerCalm(h);
    var h2 := TakeStatus(h1, i);
    if h1.serial.Replied? {
      TakeStatusCalm(h1, i);
      CalmTwice(h, h1, h2);
      StartReadCalm(h2, i, mem);
      CalmTwice(h, h2, StartRead(h2, i, mem));
    } else {
      StoppedCalm(h1, i, mem);
      EndedCalm(h, StartRead(h2, i, mem));
    }
  }

  lemma StoppedCalm(h: H, i: nat, mem: bool)
    requires i < |h.transfers| && !h.serial.Replied?
    ensures |TakeStatus(h, i).transfers| == |h.transfers| && !StartRead(TakeStatus(h, i), i, mem).running
  {
    hide HasInternal;
  }

  lemma EndedCalm(h: H, r: H)
    requires !r.running
    ensures Calm(h, r)
  {
  }

  lemma ReadReturnCalm(h: H, i: nat, mem: bool)
    requires PtrOk(h) && i < |h.transfers| && h.running
    ensures Calm(h, DoReadReturn(h, i, mem))
  {
    hide Calm, StopTimer, TakeStatus, TakePacket, DoReply;
    var h1 := StopTimer(h);
    StopTimerCalm(h);
    if HasData(h1.serial) {
      var h2 := TakeStatus(h1, i);
      TakeStatusCalm(h1, i);
      CalmTwice(h, h1, h2);
      var x := if mem then h1.serial.reply else Rejected(ERROR_NO_FREE_STORE);
      var h3 := TakePacket(h2, i, x);
      PacketCalm(h2, i, x);
      CalmTwice(h, h2, h3);
      ReplyCalm(h3, i);
      CalmTwice(h, h3, DoReply(h3, i));
    } else {
      EndedCalm(h, Trap(h1));
    }
  }

  lemma SerialCalm(h: H, mem: bool)
    requires PtrOk(h) && h.running
    ensures Calm(h, DoSerialReply(h, mem))
  {
    hide Calm, DoWriteReturn, DoReadReturn;
    EndedCalm(h, Trap(h));
    if h.ioArg.Some? {
      WriteReturnCalm(h, h.ioArg.value, mem);
      ReadReturnCalm(h, h.ioArg.value, mem);
    }
  }

  lemma PickAwake(h: H, net: Net)
    ensures Awake(DoSendNextFile(h, net))
  {
    if !h.busy {
      match NextReady(h.transfers, 0)
      case None =>
      case Some(i) =>
        var h1 := h.(busy := true, local := Some(i), ioType := WriteReturn, ioArg := Some(i),
                     started := h.started + [i]);
        SendCalm(h1, i, Wrq(h.transfers[i].name), WrqSent, net);
    }
  }

  /** A pass that is calm after its message is taken off keeps the wakeup, unless the message was one. */
  lemma CalmAwake(h: H, m: Msg<nat>, rest: seq<Msg<nat>>, r: H)
    requires h.port == [m] + rest && Awake(h) && h.running && KindOf(m) != Wake
    requires Calm(h.(port := rest), r)
    ensures Awake(r)
  {
    WakeTail(h.port);
  }

  /** One message handled. */
  lemma HandleAwake(h: H, net: Net)
    requires PtrOk(h) && h.port != [] && Awake(h) && h.running
    ensures Awake(Handle(h, net))
  {
    hide Calm, Awake, DoFindOutput, DoWrite, DoEnd, DoSendNextFile, DoSendNextBuffer, DoContinueBuffer,
         DoBufferFinished, DoFileDone, DoSerialReply, DoTimerExpired, Abort;
    var m, rest := h.port[0], h.port[1..];
    var h1, r := h.(port := rest), Handle(h, net);
    assert Points(m, |h.transfers|);
    match m
    case SendNextFile => PickAwake(h1, net);
    case FileFinished(i) => DoneAwake(h1, i);
    case FileFailed(i) => DoneAwake(h1, i);
    case End(i) => EndAwake(h1, i);
    case FindOutput(name) => FindOutputCalm(h1, name, net.mem); CalmAwake(h, m, rest, r);
    case Write(i, bytes) => WriteCalm(h1, i, bytes, net.mem); CalmAwake(h, m, rest, r);
    case SerialReply => SerialCalm(h1, net.mem); CalmAwake(h, m, rest, r);
    case TimerReply => TimerCalm(h1); CalmAwake(h, m, rest, r);
    case SendNextBuffer(i) => NextBufferCalm(h1, i, net); CalmAwake(h, m, rest, r);
    case ContinueBuffer(i) => ContinueCalm(h1, i, net); CalmAwake(h, m, rest, r);
    case BufferFinished(i) => BufferFinishedCalm(h1, i); CalmAwake(h, m, rest, r);
    case Die => EndedCalm(h1, r); CalmAwake(h, m, rest, r);
    case Other => OtherCalm(h1); CalmAwake(h, m, rest, r);
  }

  lemma OtherCalm(h: H)
    ensures Calm(h, h)
  {
  }

  lemma DoneAwake(h: H, i: nat)
    requires i < |h.transfers|
    ensures Awake(DoFileDone(h, i))
  {
    WakeAppended(h.port, SendNextFile);
  }

  lemma EndAwake(h: H, i: nat)
    requires i < |h.transfers|
    ensures Awake(DoEnd(h, i))
  {
    WakeAppended(h.port, SendNextFile);
  }

  lemma TimerCalm(h: H)
    requires PtrOk(h)
    ensures Calm(h, DoTimerExpired(h))
  {
    if h.local.Some? {
      FailWakes(Abandon(h), h.local.value, ERROR_IO_TIMEOUT);
    }
  }

  lemma FindOutputCalm(h: H, name: CString, mem: bool)
    ensures Calm(h, DoFindOutput(h, name, mem))
  {
    NewNotReady(h.transfers, name);
  }

  lemma NewNotReady(ts: seq<Ftx>, name: CString)
    ensures AnyReady(ts + [NewFtx(name)]) ==> AnyReady(ts)
  {
    if AnyReady(ts + [NewFtx(name)]) {
      var j :| 0 <= j <= |ts| && (ts + [NewFtx(name)])[j].state == Ready;
      assert ts[j].state == Ready;
    }
  }

  lemma WriteCalm(h: H, i: nat, bytes: seq<byte>, mem: bool)
    requires i < |h.transfers|
    ensures Calm(h, DoWrite(h, i, bytes, mem))
  {
    var t := h.transfers[i];
    if mem {
      SameReady(h.transfers, i, t.(buffers := t.buffers + [FreshBuf(bytes)], writes := t.writes + [bytes]));
    } else {
      WakeAppended(h.port, FileFailed(i));
    }
  }

  lemma ApplyAwake(h: H, mv: Move)
    requires PtrOk(h) && Possible(h, mv) && Awake(h)
    ensures Awake(Apply(h, mv))
  {
    hide Handle;
    match mv
    case Step(net) => HandleAwake(h, net);
    case ClientSends(m) => WakeAppended(h.port, m);
    case WriteDone(_) => WakeAppended(h.port, SerialReply);
    case ReadDone(_, _) => WakeAppended(h.port, SerialReply);
    case TimerFires => WakeAppended(h.port, TimerReply);
  }

  /** No lost wakeup, in every reachable state. */
  lemma {:induction false} NoLostWakeup(h: H, moves: seq<Move>)
    requires PtrOk(h) && Awake(h) && PossibleRun(h, moves)
    ensures Awake(After(h, moves))
    decreases |moves|
  {
    if moves != [] {
      ApplyAwake(h, moves[0]);
      NoLostWakeup(Apply(h, moves[0]), moves[1..]);
    }
  }
}

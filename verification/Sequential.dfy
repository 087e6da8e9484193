/** When reusing the one internal packet is harmless. Every internal message is the same outpkt, so
    sending it while it is still queued would overwrite one message and corrupt the list; the model
    queues fresh values and records such a send in `reused`. In sequential runs it never happens. */
module Sequential {
  import opened Bytes
  import opened Messages
  import opened Packets
  import opened Engine
  import opened Files
  import opened Ownership
  import opened Effects

  function Ends(q: seq<Msg<nat>>): nat {
    if q == [] then 0 else (if q[0].End? then 1 else 0) + Ends(q[1..])
  }

  predicate HandlerIdle(h: H) {
    !h.busy && !HasInternal(h.port) && Ends(h.port) == 0
  }

  /** Files are closed only while the handler is idle, and replies are read and taken apart without
      an error. */
  predicate InSequence(h: H, mv: Move) {
    match mv
    case ClientSends(m) => m.End? ==> HandlerIdle(h)
    case ReadDone(status, reply) => status == 0 && reply.Payload?
    case Step(net) => h.port != [] && h.port[0] == SerialReply && h.ioType == ReadReturn ==> net.mem
    case _ => true
  }

  predicate Disciplined(h: H, mv: Move) {
    Orderly(h, mv) && InSequence(h, mv)
  }

  predicate SeqInv(h: H, ph: Phase) {
    && !h.reused
    && |Of(h.port, Wake)| + Ends(h.port) <= (if ph == Rest then 1 else 0)
    && (h.serial.Replied? && h.serial.op.OpRead? ==> h.serial.status == 0 && h.serial.reply.Payload?)
  }

  /** The internal messages queued, and the serial request unless it is unused. */
  function Tokens(h: H): nat {
    |Of(h.port, Active)| + |Of(h.port, Wake)| + if h.serial == Idle then 0 else 1
  }

  // ---------------------------------------------------------------------------------------
  // At most one send a pass
  // ---------------------------------------------------------------------------------------

  lemma {:induction false} HasInternalOf(q: seq<Msg<nat>>)
    ensures HasInternal(q) <==> Of(q, Active) != [] || Of(q, Wake) != []
  {
    if q != [] {
      HasInternalOf(q[1..]);
    }
  }

  lemma {:induction false} EndsConcat(a: seq<Msg<nat>>, b: seq<Msg<nat>>)
    ensures Ends(a + b) == Ends(a) + Ends(b)
  {
    if a == [] {
      assert a + b == b;
    } else {
      assert (a + b)[1..] == a[1..] + b;
      EndsConcat(a[1..], b);
    }
  }

  lemma {:induction false} EndsWithout(q: seq<Msg<nat>>, k: Kind)
    requires k != Client
    ensures Ends(Without(q, k)) == Ends(q)
  {
    if q != [] {
      EndsWithout(q[1..], k);
      EndsConcat(if KindOf(q[0]) == k then [] else [q[0]], Without(q[1..], k));
    }
  }

  /** From h to r at most one internal message is sent, a wakeup only with the link free; and no reply
      turns up. */
  predicate OneSend(h: H, r: H) {
    && (r.serial.Replied? ==> r.serial == h.serial)
    && (|| (r.port == h.port && r.reused == h.reused)
        || (&& |r.port| == |h.port| + 1 && r.port[..|h.port|] == h.port && Internal(r.port[|h.port|])
            && r.reused == (h.reused || HasInternal(h.port))
            && (KindOf(r.port[|h.port|]) == Wake ==> !r.busy)))
  }

  lemma FailOneSend(h: H, i: nat, error: nat)
    requires i < |h.transfers|
    ensures OneSend(h, Fail(h, i, error))
  {
    hide HasInternal;
  }

  lemma OneSendVia(h: H, a: H, r: H)
    requires a.port == h.port && a.reused == h.reused && a.serial == h.serial && OneSend(a, r)
    ensures OneSend(h, r)
  {
  }

  lemma ChunkOneSend(h: H, i: nat, net: Net)
    requires i < |h.transfers| && h.transfers[i].buffers != []
    ensures OneSend(h, SendChunk(h, i, net))
  {
    hide OneSend, Fail, Chunk, InBounds;
    var t, r := h.transfers[i], SendChunk(h, i, net);
    var h1 := SetFtx(h, i, t.(blknum := (t.blknum + 1) % TWO32)).(ioType := WriteReturn);
    if InBounds(t.buffers[0]) && SendError(net) != 0 {
      FailOneSend(h1, i, SendError(net));
      OneSendVia(h, h1, r);
    } else {
      SilentOneSend(h, r);
    }
  }

  lemma SilentOneSend(h: H, r: H)
    requires r.port == h.port && r.reused == h.reused && (r.serial.Replied? ==> r.serial == h.serial)
    ensures OneSend(h, r)
  {
  }

  lemma NextOneSend(h: H, i: nat, net: Net)
    requires i < |h.transfers|
    ensures OneSend(h, DoSendNextBuffer(h, i, net))
  {
    hide SendChunk, HasInternal, SendInternal, OneSend;
    var h1 := h.(local := Some(i));
    if h.transfers[i].buffers != [] {
      ChunkOneSend(h1, i, net);
      OneSendVia(h, h1, DoSendNextBuffer(h, i, net));
    } else {
      var h2 := SetFtx(h1, i, h.transfers[i].(state := Finished)).(busy := false);
      WakeOneSend(h2, FileFinished(i));
      OneSendVia(h, h2, DoSendNextBuffer(h, i, net));
    }
  }

  lemma ContinueOneSend(h: H, i: nat, net: Net)
    requires i < |h.transfers|
    ensures OneSend(h, DoContinueBuffer(h, i, net))
  {
    hide SendChunk, OneSend;
    var t, r := h.transfers[i], DoContinueBuffer(h, i, net);
    if t.buffers != [] {
      var h1 := SetFtx(h.(local := Some(i)), i, Advanced(t));
      ChunkOneSend(h1, i, net);
      OneSendVia(h, h1, r);
    } else {
      SilentOneSend(h, r);
    }
  }

  lemma ReleaseOneSend(h: H, i: nat)
    requires i < |h.transfers|
    ensures OneSend(h, DoBufferFinished(h, i))
  {
    hide SendInternal, OneSend;
    var t, r := h.transfers[i], DoBufferFinished(h, i);
    if t.buffers != [] {
      var h1 := SetFtx(h.(local := Some(i)), i, t.(buffers := t.buffers[1..]));
      PassOneSend(h1, SendNextBuffer(i));
      OneSendVia(h, h1, r);
    } else {
      SilentOneSend(h, r);
    }
  }

  lemma ActiveOneSend(h: H, m: Msg<nat>, net: Net)
    requires KindOf(m) == Active && m.ftx < |h.transfers|
    ensures OneSend(h, match m
                       case SendNextBuffer(i) => DoSendNextBuffer(h, i, net)
                       case ContinueBuffer(i) => DoContinueBuffer(h, i, net)
                       case BufferFinished(i) => DoBufferFinished(h, i))
  {
    hide DoSendNextBuffer, DoContinueBuffer, DoBufferFinished, OneSend;
    match m
    case SendNextBuffer(i) => NextOneSend(h, i, net);
    case ContinueBuffer(i) => ContinueOneSend(h, i, net);
    case BufferFinished(i) => ReleaseOneSend(h, i);
  }

  lemma WakeOneSend(h: H, m: Msg<nat>)
    requires KindOf(m) == Wake && !h.busy
    ensures OneSend(h, SendInternal(h, m))
  {
    hide HasInternal;
  }

  lemma PassOneSend(h: H, m: Msg<nat>)
    requires KindOf(m) == Active
    ensures OneSend(h, SendInternal(h, m))
  {
    hide HasInternal;
  }

  lemma AckedOneSend(h: H, i: nat)
    requires i < |h.transfers|
    ensures OneSend(h, DoAcked(h, i))
  {
    hide SendInternal, OneSend, Chunk, InBounds;
    var t, r := h.transfers[i], DoAcked(h, i);
    if t.buffers != [] && InBounds(t.buffers[0]) {
      var h1 := SetFtx(h, i, Acked(t));
      PassOneSend(h1, ContinueBuffer(i));
      PassOneSend(h1, BufferFinished(i));
      OneSendVia(h, h1, r);
    } else {
      SilentOneSend(h, r);
    }
  }

  lemma ReplyOneSend(h: H, i: nat)
    requires i < |h.transfers| && |h.tftppkt| >= 4
    ensures OneSend(h, DoReply(h, i))
  {
    hide Fail, SendInternal, DoAcked, OneSend, GetOpcode, GetBlknum;
    FailOneSend(h, i, ERROR_TFTP_GENERIC_ERROR);
    FailOneSend(h, i, ERROR_TFTP_UNKNOWN_OPCODE);
    FailOneSend(h, i, ERROR_TFTP_WRONG_BLOCK_NUM);
    PassOneSend(h, SendNextBuffer(i));
    AckedOneSend(h, i);
    SilentOneSend(h, h.(busy := false, running := false));
  }

  lemma StartReadOneSend(h: H, i: nat, mem: bool)
    requires i < |h.transfers|
    ensures OneSend(h, StartRead(h, i, mem))
  {
    hide HasInternal;
  }

  lemma SendOneSend(h: H, i: nat, p: Packet, next: FileState, net: Net)
    requires i < |h.transfers|
    ensures OneSend(h, Send(h, i, p, next, net))
  {
    hide Fail, OneSend;
    if SendError(net) != 0 {
      FailOneSend(h, i, SendError(net));
    } else {
      SilentOneSend(h, Send(h, i, p, next, net));
    }
  }

  lemma PickOneSend(h: H, net: Net)
    ensures OneSend(h, DoSendNextFile(h, net))
  {
    hide Send, OneSend, NextReady;
    var r := DoSendNextFile(h, net);
    if !h.busy && NextReady(h.transfers, 0).Some? {
      var i := NextReady(h.transfers, 0).value;
      SendOneSend(Picked(h, i), i, Wrq(h.transfers[i].name), WrqSent, net);
      OneSendVia(h, Picked(h, i), r);
    } else {
      SilentOneSend(h, r);
    }
  }

  lemma DoneOneSend(h: H, i: nat)
    requires i < |h.transfers| && !h.busy
    ensures OneSend(h, DoFileDone(h, i)) && OneSend(h, DoEnd(h, i))
  {
    hide HasInternal, Unacked;
  }

  /** A pass that sends at most one message, from a state without internal messages, keeps the
      discipline. */
  lemma OneSendSeq(h: H, r: H, next: Phase)
    requires OneSend(h, r) && !h.reused && Lonely(h) && h.serial == Idle
    requires next != Rest ==> r.busy
    ensures SeqInv(r, next)
  {
    HasInternalOf(h.port);
    if |r.port| == |h.port| + 1 {
      var m := r.port[|h.port|];
      assert r.port == h.port + [m];
      OfAppend(h.port, m);
      EndsConcat(h.port, [m]);
      assert Ends([m]) == 0;
    }
  }

  /** No internal message and no ACTION_END is queued. */
  predicate Lonely(h: H) {
    Of(h.port, Active) == [] && Of(h.port, Wake) == [] && Ends(h.port) == 0
  }

  lemma InvBusy(h: H, ph: Phase)
    requires Inv(h, ph)
    ensures h.busy <==> ph != Rest
    ensures ph == Rest ==> Of(h.port, Active) == [] && h.serial == Idle
    ensures ph != Rest ==> |Of(h.port, Active)| + (if h.serial == Idle then 0 else 1) == 1
  {
  }

  lemma UpLonely(h: H, i: nat, ph: Phase)
    requires Up(h, i, ph) && Of(h.port, Wake) == [] && Ends(h.port) == 0
    ensures Lonely(h) && h.serial == Idle
  {
  }

  lemma ActiveSeq(h: H, ph: Phase, net: Net)
    requires PtrOk(h) && h.port != [] && Inv(h, ph) && SeqInv(h, ph) && KindOf(h.port[0]) == Active
    requires Inv(Handle(h, net), NextPhase(h, ph, net))
    ensures SeqInv(Handle(h, net), NextPhase(h, ph, net))
  {
    hide Inv, Up, PtrOk, DoSendNextBuffer, DoContinueBuffer, DoBufferFinished, NextPhase, OneSend;
    HeadPoints(h);
    var h1, r, next := Rest1(h), Handle(h, net), NextPhase(h, ph, net);
    TakeToken(h, ph);
    UpLonely(h1, h.ioArg.value, ph);
    ActiveOneSend(h1, h.port[0], net);
    InvBusy(r, next);
    OneSendSeq(h1, r, next);
  }

  /** With the timer stopped and the reply fetched. */
  function Fetched(h: H): H
    requires h.port != []
  {
    StopTimer(Rest1(h)).(serial := Idle)
  }

  lemma FetchedLonely(h: H, ph: Phase)
    requires h.port != [] && Inv(h, ph) && SeqInv(h, ph) && h.port[0] == SerialReply
    ensures ph != Rest && h.serial.Replied? && h.ioArg.Some?
    ensures Lonely(Fetched(h)) && Fetched(h).serial == Idle && !Fetched(h).reused
  {
    hide Inv, Up, Signals;
    TakeSerial(h, ph);
    var q := h.port[1..];
    OfWithout(q, Timer);
    EndsWithout(q, Timer);
    UpLonely(Fetched(h), h.ioArg.value, ph);
  }

  lemma WriteReturnSeq(h: H, ph: Phase, net: Net)
    requires PtrOk(h) && h.port != [] && Inv(h, ph) && SeqInv(h, ph) && h.port[0] == SerialReply
    requires h.ioType == WriteReturn && Inv(Handle(h, net), NextPhase(h, ph, net))
    ensures SeqInv(Handle(h, net), NextPhase(h, ph, net))
  {
    hide Inv, PtrOk, StartRead, NextPhase, OneSend, StopTimer, SeqInv, Lonely;
    HeadPoints(h);
    FetchedLonely(h, ph);
    ReplyStatus(h, ph);
    StopTimerSame(Rest1(h));
    StartReadOneSend(Fetched(h), h.ioArg.value, net.mem);
    InvBusy(Handle(h, net), NextPhase(h, ph, net));
    OneSendSeq(Fetched(h), Handle(h, net), NextPhase(h, ph, net));
  }

  lemma StopTimerSame(h: H)
    ensures StopTimer(h) == h.(timer := Stopped, port := StopTimer(h).port)
  {
  }

  lemma ReplyStatus(h: H, ph: Phase)
    requires Inv(h, ph) && h.serial.Replied?
    ensures h.ioType == if h.serial.op.OpWrite? then WriteReturn else ReadReturn
    ensures h.serial.op.OpWrite? ==> h.serial.status == 0
    ensures h.ioArg.Some? && h.ioArg.value < |h.transfers|
  {
  }

  lemma ReadReturnSeq(h: H, ph: Phase, net: Net)
    requires PtrOk(h) && h.port != [] && Inv(h, ph) && SeqInv(h, ph) && h.port[0] == SerialReply && net.mem
    requires h.serial.Replied? && h.serial.status == 0 && h.serial.reply.Payload?
    requires h.ioType == ReadReturn && Inv(Handle(h, net), NextPhase(h, ph, net))
    ensures SeqInv(Handle(h, net), NextPhase(h, ph, net))
  {
    hide Inv, PtrOk, DoReply, NextPhase, OneSend, StopTimer, SeqInv, Lonely, Overlay;
    HeadPoints(h);
    ReplyStatus(h, ph);
    FetchedLonely(h, ph);
    ArgPoints(h);
    StopTimerSame(Rest1(h));
    var h1 := Fetched(h).(tftppkt := Overlay(h.tftppkt, h.serial.reply.bytes));
    ReplyOneSend(h1, h.ioArg.value);
    OneSendVia(Fetched(h), h1, Handle(h, net));
    InvBusy(Handle(h, net), NextPhase(h, ph, net));
    OneSendSeq(Fetched(h), Handle(h, net), NextPhase(h, ph, net));
  }

  lemma TimerSeq(h: H, ph: Phase, net: Net)
    requires PtrOk(h) && h.port != [] && Inv(h, ph) && SeqInv(h, ph) && h.port[0] == TimerReply && h.local.Some?
    ensures SeqInv(Handle(h, net), Rest)
  {
    hide Inv, Up, PtrOk, Fail, OneSend, Signals;
    HeadPoints(h);
    TakeTimer(h, ph);
    var q, u := h.port[1..], Abandon(Rest1(h));
    OfWithout(q, Kind.Serial);
    EndsWithout(q, Kind.Serial);
    UpLonely(Abort(Rest1(h)).(timer := Stopped), h.ioArg.value, ph);
    FailOneSend(u, h.local.value, ERROR_IO_TIMEOUT);
    OneSendSeq(u, Handle(h, net), Rest);
  }

  lemma WakeSeq(h: H, ph: Phase, net: Net)
    requires PtrOk(h) && h.port != [] && Inv(h, ph) && SeqInv(h, ph) && KindOf(h.port[0]) == Wake
    requires Inv(Handle(h, net), NextPhase(h, ph, net))
    ensures SeqInv(Handle(h, net), NextPhase(h, ph, net))
  {
    hide Inv, PtrOk, DoSendNextFile, DoFileDone, NextPhase, OneSend;
    HeadPoints(h);
    var h1, r, next := Rest1(h), Handle(h, net), NextPhase(h, ph, net);
    InvBusy(h, ph);
    InvBusy(r, next);
    match h.port[0]
    case SendNextFile => PickOneSend(h1, net); OneSendSeq(h1, r, next);
    case FileFinished(i) => DoneOneSend(h1, i); OneSendSeq(h1, r, next);
    case FileFailed(i) => DoneOneSend(h1, i); OneSendSeq(h1, r, next);
  }

  lemma ClientSeq(h: H, ph: Phase, net: Net)
    requires PtrOk(h) && h.port != [] && Inv(h, ph) && SeqInv(h, ph) && KindOf(h.port[0]) == Client
    requires h.port[0] != Die && (h.port[0].Write? ==> net.mem)
    ensures SeqInv(Handle(h, net), ph)
  {
    hide Inv, PtrOk, DoEnd, OneSend, Handle;
    HeadPoints(h);
    ClientHandled(h, net);
    if h.port[0].End? {
      InvBusy(h, ph);
      DoneOneSend(Rest1(h), h.port[0].ftx);
      OneSendSeq(Rest1(h), Handle(h, net), ph);
    }
  }

  /** A client's packet other than END leaves the port and the requests alone. */
  lemma ClientHandled(h: H, net: Net)
    requires PtrOk(h) && h.port != [] && KindOf(h.port[0]) == Client && h.port[0] != Die
    requires h.port[0].Write? ==> net.mem
    ensures h.port[0].End? ==> h.port[0].ftx < |h.transfers| && Handle(h, net) == DoEnd(Rest1(h), h.port[0].ftx)
    ensures !h.port[0].End? ==>
              var r := Handle(h, net);
              r.port == h.port[1..] && r.reused == h.reused && r.serial == h.serial
  {
    hide PtrOk, DoEnd, NewFtx, FreshBuf;
    HeadPoints(h);
  }

  lemma AppendSeq(h: H, h1: H, ph: Phase, m: Msg<nat>)
    requires SeqInv(h, ph) && h1.port == h.port + [m] && h1.reused == h.reused && !Internal(m)
    requires m.End? ==> ph == Rest && Of(h.port, Wake) == [] && Ends(h.port) == 0
    requires h1.serial.Replied? && h1.serial.op.OpRead? ==> h1.serial.status == 0 && h1.serial.reply.Payload?
    ensures SeqInv(h1, ph)
  {
    OfAppend(h.port, m);
    EndsConcat(h.port, [m]);
    assert Ends([m]) == (if m.End? then 1 else 0) + Ends([m][1..]);
  }

  lemma MoveSeq(h: H, ph: Phase, mv: Move)
    requires PtrOk(h) && Possible(h, mv) && Inv(h, ph) && SeqInv(h, ph) && Disciplined(h, mv) && !mv.Step?
    ensures SeqInv(Apply(h, mv), ph)
  {
    hide Inv, PtrOk, Orderly, HasInternal;
    InvBusy(h, ph);
    HasInternalOf(h.port);
    match mv
    case ClientSends(m) => AppendSeq(h, Apply(h, mv), ph, m);
    case WriteDone(_) => AppendSeq(h, Apply(h, mv), ph, SerialReply);
    case ReadDone(_, _) => AppendSeq(h, Apply(h, mv), ph, SerialReply);
    case TimerFires => AppendSeq(h, Apply(h, mv), ph, TimerReply);
  }

  lemma StepSeq(h: H, ph: Phase, net: Net)
    requires PtrOk(h) && h.port != [] && h.running && Inv(h, ph) && SeqInv(h, ph) && Disciplined(h, Step(net))
    ensures Handle(h, net).running ==> SeqInv(Handle(h, net), NextPhase(h, ph, net))
  {
    hide Inv, PtrOk, Handle, SeqInv;
    HandleInv(h, ph, net);
    if Handle(h, net).running {
      if KindOf(h.port[0]) == Active {
        ActiveSeq(h, ph, net);
      } else if KindOf(h.port[0]) == Wake {
        WakeSeq(h, ph, net);
      } else if h.port[0] == SerialReply {
        TakeSerial(h, ph);
        ReplyStatus(h, ph);
        if h.ioType == WriteReturn {
          WriteReturnSeq(h, ph, net);
        } else {
          ReadGood(h, ph);
          ReadReturnSeq(h, ph, net);
        }
      } else if h.port[0] == TimerReply {
        TakeTimer(h, ph);
        TimerSeq(h, ph, net);
      } else if h.port[0] == Die {
        DieStops(h, net);
      } else {
        ClientSeq(h, ph, net);
      }
    }
  }

  lemma DieStops(h: H, net: Net)
    requires PtrOk(h) && h.port != [] && h.port[0] == Die
    ensures !Handle(h, net).running
  {
  }

  lemma ReadGood(h: H, ph: Phase)
    requires SeqInv(h, ph) && h.serial.Replied? && h.serial.op.OpRead?
    ensures h.serial.status == 0 && h.serial.reply.Payload?
  {
  }
}

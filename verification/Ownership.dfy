/** Who owns the serial link. In orderly runs exactly the busy handler's one active transfer does, and
    exactly one thing, a queued packet or an outstanding request, will carry that transfer on. */
module Ownership {
  import opened Bytes
  import opened Messages
  import opened Packets
  import opened Engine
  import opened Files

  // ---------------------------------------------------------------------------------------
  // The assumptions about a run
  // ---------------------------------------------------------------------------------------

  /** A client writes to a file only while it has it open, and closes it once. */
  predicate Polite(h: H, mv: Move) {
    mv.ClientSends? && (mv.msg.Write? || mv.msg.End?) ==>
      mv.msg.ftx < |h.transfers| && h.transfers[mv.msg.ftx].state == Queued && End(mv.msg.ftx) !in h.port
  }

  /** ACTION_WRITE finds memory for its buffer. */
  predicate WriteHasMemory(h: H, mv: Move) {
    mv.Step? && h.port != [] && h.port[0].Write? ==> mv.net.mem
  }

  /** Serial writes end without an error. */
  predicate WriteSucceeds(h: H, mv: Move) {
    mv.WriteDone? ==> mv.status == 0
  }

  predicate Orderly(h: H, mv: Move) {
    Polite(h, mv) && WriteHasMemory(h, mv) && WriteSucceeds(h, mv)
  }

  // ---------------------------------------------------------------------------------------
  // The invariant
  // ---------------------------------------------------------------------------------------

  predicate Refers(m: Msg<nat>, j: nat) {
    (m.Write? || m.End?) && m.ftx == j
  }

  /** Clients still write to open files only, and nothing follows the END of a file. */
  predicate ClientsOk(cl: seq<Msg<nat>>, ts: seq<Ftx>) {
    && (forall p :: 0 <= p < |cl| && (cl[p].Write? || cl[p].End?) ==>
          cl[p].ftx < |ts| && ts[cl[p].ftx].state == Queued)
    && (forall p, q :: 0 <= p < q < |cl| && cl[p].End? ==> !Refers(cl[q], cl[p].ftx))
  }

  /** The end of a file is only announced once it has come; a timeout may still fail a finished file. */
  predicate WakeOk(m: Msg<nat>, ts: seq<Ftx>) {
    && (m.FileFailed? ==> m.ftx < |ts| && ts[m.ftx].state == Error)
    && (m.FileFinished? ==> m.ftx < |ts| && (ts[m.ftx].state == Finished || ts[m.ftx].state == Error))
  }

  predicate QueueOk(q: seq<Msg<nat>>, ts: seq<Ftx>) {
    ClientsOk(Of(q, Client), ts) && (forall m :: m in q ==> WakeOk(m, ts))
  }

  /** The transfers without the link; only stranded ones among them are in flight. */
  predicate OthersOk(ts: seq<Ftx>, i: nat, stranded: bool) {
    forall j :: 0 <= j < |ts| && j != i ==> RestOk(ts[j]) && (Sent(ts[j]) ==> stranded)
  }

  /** The local variable of the main loop never names an open file. */
  predicate LocalOk(local: Option<nat>, ts: seq<Ftx>) {
    local.Some? ==> local.value < |ts| && ts[local.value].state != Queued
  }

  /** The packet that carries transfer i on in phase ph. */
  function Token(ph: Phase, i: nat): seq<Msg<nat>> {
    match ph
    case Next => [SendNextBuffer(i)]
    case Cont => [ContinueBuffer(i)]
    case BufDone => [BufferFinished(i)]
    case _ => []
  }

  /** The active packets and the replies at the port. */
  predicate Signals(q: seq<Msg<nat>>, active: seq<Msg<nat>>, serial: bool, timer: bool) {
    && Of(q, Active) == active
    && Of(q, Kind.Serial) == (if serial then [SerialReply] else [])
    && Of(q, Timer) == (if timer then [TimerReply] else [])
  }

  /** The packet transfer record t has on the line in phase ph. */
  function OnLine(t: Ftx, ph: Phase): Packet {
    if ph == DataOut && t.buffers != [] && InBounds(t.buffers[0]) then
      Data(t.blknum % 0x10000, Chunk(t.buffers[0]))
    else Wrq(t.name)
  }

  predicate IoOk(h: H, ph: Phase) {
    && (h.serial != Idle <==> ph == WrqOut || ph == DataOut)
    && (h.timer != Stopped <==> h.serial != Idle)
    && (h.serial != Idle ==> h.ioType == if h.serial.op.OpWrite? then WriteReturn else ReadReturn)
    && (h.serial.Replied? && h.serial.op.OpWrite? ==> h.serial.status == 0)
  }

  predicate Unharmed(h: H) {
    !h.clashed && !h.trapped
  }

  /** Transfer i has the link, whatever is about to carry it on. */
  predicate Holds(h: H, i: nat, ph: Phase) {
    && h.busy && h.ioArg == Some(i) && i < |h.transfers| && Unharmed(h)
    && XferOk(h.transfers[i], ph) && OthersOk(h.transfers, i, h.stranded) && QueueOk(h.port, h.transfers)
    && h.local.Some? && LocalOk(h.local, h.transfers)
  }

  predicate Inv(h: H, ph: Phase) {
    if ph == Rest then
      && !h.busy && Unharmed(h) && IoOk(h, ph) && Signals(h.port, [], false, false)
      && OthersOk(h.transfers, |h.transfers|, h.stranded) && QueueOk(h.port, h.transfers)
      && LocalOk(h.local, h.transfers)
    else
      && h.ioArg.Some? && Holds(h, h.ioArg.value, ph) && IoOk(h, ph)
      && Signals(h.port, Token(ph, h.ioArg.value), h.serial.Replied?, h.timer == Fired)
      && (h.serial != Idle && h.serial.op.OpWrite? ==> h.serial.op.data == OnLine(h.transfers[h.ioArg.value], ph))
  }

  /** The state after a pass, which may have ended the handler. */
  predicate Fine(h: H, ph: Phase) {
    Unharmed(h) && (h.running ==> Inv(h, ph))
  }

  /** In the middle of a pass: transfer i has the link and nothing is left to carry it on. */
  predicate Up(h: H, i: nat, ph: Phase) {
    && ph != Rest && Holds(h, i, ph) && Signals(h.port, [], false, false)
    && h.serial == Idle && h.timer == Stopped
  }

  /** In the middle of a pass: transfer i has failed. */
  predicate Down(h: H, i: nat) {
    Inv(h, Rest) && i < |h.transfers| && h.transfers[i].state == Error
  }

  lemma InvFine(h: H, ph: Phase)
    requires Inv(h, ph)
    ensures Fine(h, ph)
  {
  }

  lemma InitInv(h: H)
    requires Initial(h)
    ensures PtrOk(h) && Inv(h, Rest)
  {
  }

  // ---------------------------------------------------------------------------------------
  // Queues
  // ---------------------------------------------------------------------------------------

  lemma SignalsAppend(q: seq<Msg<nat>>, m: Msg<nat>, active: seq<Msg<nat>>, serial: bool, timer: bool)
    requires Signals(q, active, serial, timer)
    ensures KindOf(m) == Client || KindOf(m) == Wake ==> Signals(q + [m], active, serial, timer)
    ensures KindOf(m) == Active ==> Signals(q + [m], active + [m], serial, timer)
    ensures m == SerialReply && !serial ==> Signals(q + [m], active, true, timer)
    ensures m == TimerReply && !timer ==> Signals(q + [m], active, serial, true)
  {
    OfAppend(q, m);
  }

  lemma QueueAppend(q: seq<Msg<nat>>, m: Msg<nat>, ts: seq<Ftx>)
    requires QueueOk(q, ts) && WakeOk(m, ts)
    requires m.Write? || m.End? ==> m.ftx < |ts| && ts[m.ftx].state == Queued && End(m.ftx) !in q
    ensures QueueOk(q + [m], ts)
  {
    OfAppend(q, m);
    OfMembers(q, Client);
    var cl := Of(q, Client);
    if m.Write? || m.End? {
      forall p | 0 <= p < |cl| && cl[p].End?
        ensures cl[p].ftx != m.ftx
      {
        assert cl[p] in cl;
      }
    }
  }

  lemma QueueTail(q: seq<Msg<nat>>, ts: seq<Ftx>)
    requires q != [] && QueueOk(q, ts)
    ensures QueueOk(q[1..], ts) && WakeOk(q[0], ts)
    ensures KindOf(q[0]) == Client ==> ClientsOk([q[0]] + Of(q[1..], Client), ts)
  {
    var cl := Of(q, Client);
    if KindOf(q[0]) == Client {
      assert cl[1..] == Of(q[1..], Client);
      forall p, r | 0 <= p < r < |cl[1..]| && cl[1..][p].End?
        ensures !Refers(cl[1..][r], cl[1..][p].ftx)
      {
        assert cl[1..][p] == cl[p + 1] && cl[1..][r] == cl[r + 1];
      }
    } else {
      assert cl == Of(q[1..], Client);
    }
  }

  lemma QueueWithout(q: seq<Msg<nat>>, k: Kind, ts: seq<Ftx>)
    requires QueueOk(q, ts) && k != Client
    ensures QueueOk(Without(q, k), ts)
  {
    OfWithout(q, k);
    WithoutMembers(q, k);
  }

  /** A transfer that is neither open nor ended may change as long as it does not become open. */
  lemma QueueUpdate(q: seq<Msg<nat>>, ts: seq<Ftx>, i: nat, t: Ftx)
    requires QueueOk(q, ts) && i < |ts|
    requires ts[i].state != Queued || t.state == Queued
    requires ts[i].state == Error ==> t.state == Error
    requires ts[i].state == Finished ==> t.state == Finished || t.state == Error
    ensures QueueOk(q, ts[i := t])
  {
    forall m | m in q
      ensures WakeOk(m, ts[i := t])
    {
      assert WakeOk(m, ts);
    }
  }

  lemma OthersUpdate(ts: seq<Ftx>, i: nat, t: Ftx, stranded: bool)
    requires OthersOk(ts, i, stranded) && i < |ts|
    ensures OthersOk(ts[i := t], i, stranded)
    ensures RestOk(t) && (Sent(t) ==> stranded) ==> OthersOk(ts[i := t], |ts|, stranded)
  {
    hide RestOk;
  }

  lemma LocalUpdate(local: Option<nat>, ts: seq<Ftx>, i: nat, t: Ftx)
    requires LocalOk(local, ts) && i < |ts| && t.state != Queued
    ensures LocalOk(local, ts[i := t])
  {
  }

  // ---------------------------------------------------------------------------------------
  // Parts of a pass
  // ---------------------------------------------------------------------------------------

  lemma UpFail(h: H, i: nat, ph: Phase, error: nat)
    requires Up(h, i, ph) && ph != BufDone
    ensures Down(Fail(h, i, error), i)
  {
    hide XferOk, RestOk, Signals, QueueOk;
    var t := h.transfers[i].(state := Error, error := error);
    FailOk(h.transfers[i], ph, error);
    Release(h, i, ph, t, FileFailed(i));
  }

  lemma XferSent(t: Ftx, ph: Phase)
    requires XferOk(t, ph)
    ensures Sent(t)
  {
  }

  /** The link is given up, and the end of the file announced. */
  lemma Release(h: H, i: nat, ph: Phase, t: Ftx, m: Msg<nat>)
    requires Up(h, i, ph) && RestOk(t)
    requires m == if t.state == Error then FileFailed(i) else FileFinished(i)
    requires t.state == Error || t.state == Finished
    ensures Inv(SendInternal(SetFtx(h, i, t).(busy := false), m), Rest)
  {
    hide XferOk, RestOk, Signals, QueueOk, HasInternal;
    XferSent(h.transfers[i], ph);
    OthersUpdate(h.transfers, i, t, h.stranded);
    LocalUpdate(h.local, h.transfers, i, t);
    QueueUpdate(h.port, h.transfers, i, t);
    QueueAppend(h.port, m, h.transfers[i := t]);
    SignalsAppend(h.port, m, [], false, false);
  }

  lemma DownFail(h: H, i: nat, error: nat)
    requires Down(h, i)
    ensures Down(Fail(h, i, error), i)
  {
    hide Signals, QueueOk, HasInternal;
    var t := h.transfers[i].(state := Error, error := error);
    OthersUpdate(h.transfers, i, t, h.stranded);
    LocalUpdate(h.local, h.transfers, i, t);
    QueueUpdate(h.port, h.transfers, i, t);
    QueueAppend(h.port, FileFailed(i), h.transfers[i := t]);
    SignalsAppend(h.port, FileFailed(i), [], false, false);
  }

  /** A request goes out for the active transfer. */
  lemma UpStart(h: H, i: nat, ph: Phase, t: Ftx, op: Op<Packet>, next: Phase)
    requires Up(h, i, ph) && XferOk(t, next) && (next == WrqOut || next == DataOut)
    requires h.ioType == if op.OpWrite? then WriteReturn else ReadReturn
    requires op.OpWrite? ==> op.data == OnLine(t, next)
    ensures Inv(SetFtx(StartIo(h, op), i, t), next)
  {
    hide XferOk, RestOk, Signals, QueueOk;
    XferSent(h.transfers[i], ph);
    XferSent(t, next);
    OthersUpdate(h.transfers, i, t, h.stranded);
    LocalUpdate(h.local, h.transfers, i, t);
    QueueUpdate(h.port, h.transfers, i, t);
  }

  /** A packet is queued that carries the active transfer on. */
  lemma UpPass(h: H, i: nat, ph: Phase, t: Ftx, next: Phase)
    requires Up(h, i, ph) && XferOk(t, next) && |Token(next, i)| == 1
    ensures Inv(SendInternal(SetFtx(h, i, t), Token(next, i)[0]), next)
  {
    hide XferOk, RestOk, Signals, QueueOk, HasInternal, OthersOk, LocalOk, OnLine, Token;
    XferSent(h.transfers[i], ph);
    XferSent(t, next);
    OthersUpdate(h.transfers, i, t, h.stranded);
    LocalUpdate(h.local, h.transfers, i, t);
    QueueUpdate(h.port, h.transfers, i, t);
    TokenQueued(h.port, i, h.transfers[i := t], next);
  }

  lemma TokenQueued(q: seq<Msg<nat>>, i: nat, ts: seq<Ftx>, next: Phase)
    requires QueueOk(q, ts) && Signals(q, [], false, false) && |Token(next, i)| == 1
    ensures QueueOk(q + [Token(next, i)[0]], ts) && Signals(q + [Token(next, i)[0]], Token(next, i), false, false)
    ensures next != Rest && next != WrqOut && next != DataOut
  {
    hide QueueOk, Signals;
    var m := Token(next, i)[0];
    QueueAppend(q, m, ts);
    SignalsAppend(q, m, [], false, false);
    assert [] + [m] == Token(next, i);
  }

  // ---------------------------------------------------------------------------------------
  // Taking a message off the port
  // ---------------------------------------------------------------------------------------

  lemma SignalsTail(q: seq<Msg<nat>>, active: seq<Msg<nat>>, serial: bool, timer: bool)
    requires q != [] && Signals(q, active, serial, timer)
    ensures KindOf(q[0]) == Client || KindOf(q[0]) == Wake ==> Signals(q[1..], active, serial, timer)
    ensures KindOf(q[0]) == Active ==> active != [] && q[0] == active[0] && Signals(q[1..], active[1..], serial, timer)
    ensures q[0] == SerialReply ==> serial && Signals(q[1..], active, false, timer)
    ensures q[0] == TimerReply ==> timer && Signals(q[1..], active, serial, false)
  {
  }

  lemma SignalsWithout(q: seq<Msg<nat>>, active: seq<Msg<nat>>, serial: bool, timer: bool)
    requires Signals(q, active, serial, timer)
    ensures Signals(Without(q, Timer), active, serial, false)
    ensures Signals(Without(q, Kind.Serial), active, false, timer)
  {
    OfWithout(q, Timer);
    OfWithout(q, Kind.Serial);
  }

  /** A client packet or a wakeup taken off leaves the invariant as it is. */
  lemma TakeOther(h: H, ph: Phase)
    requires h.port != [] && Inv(h, ph) && (KindOf(h.port[0]) == Client || KindOf(h.port[0]) == Wake)
    ensures Inv(Rest1(h), ph)
  {
    hide XferOk, RestOk, Signals, QueueOk;
    QueueTail(h.port, h.transfers);
    if ph == Rest {
      SignalsTail(h.port, [], false, false);
    } else {
      SignalsTail(h.port, Token(ph, h.ioArg.value), h.serial.Replied?, h.timer == Fired);
    }
  }

  /** An active packet names the active transfer and is the only thing that would carry it on. */
  lemma TakeToken(h: H, ph: Phase)
    requires h.port != [] && Inv(h, ph) && KindOf(h.port[0]) == Active
    ensures ph != Rest && h.ioArg.Some? && Token(ph, h.ioArg.value) == [h.port[0]]
    ensures Up(Rest1(h), h.ioArg.value, ph)
  {
    hide XferOk, RestOk, Signals, QueueOk;
    QueueTail(h.port, h.transfers);
    if ph == Rest {
      SignalsTail(h.port, [], false, false);
    } else {
      SignalsTail(h.port, Token(ph, h.ioArg.value), h.serial.Replied?, h.timer == Fired);
    }
  }

  /** A serial reply comes for the active transfer; with the timer stopped and the status fetched
      nothing else is left to carry it on. */
  lemma TakeSerial(h: H, ph: Phase)
    requires h.port != [] && Inv(h, ph) && h.port[0] == SerialReply
    ensures (ph == WrqOut || ph == DataOut) && h.serial.Replied? && h.ioArg.Some?
    ensures Up(StopTimer(Rest1(h)).(serial := Idle), h.ioArg.value, ph)
  {
    hide XferOk, RestOk, Signals, QueueOk;
    QueueTail(h.port, h.transfers);
    if ph == Rest {
      SignalsTail(h.port, [], false, false);
    } else {
      SignalsTail(h.port, Token(ph, h.ioArg.value), h.serial.Replied?, h.timer == Fired);
      SignalsWithout(h.port[1..], Token(ph, h.ioArg.value), false, h.timer == Fired);
      QueueWithout(h.port[1..], Timer, h.transfers);
    }
  }

  /** A timeout comes for the active transfer; aborting the request leaves nothing to carry it on. */
  lemma TakeTimer(h: H, ph: Phase)
    requires h.port != [] && Inv(h, ph) && h.port[0] == TimerReply
    ensures (ph == WrqOut || ph == DataOut) && h.ioArg.Some?
    ensures Up(Abort(Rest1(h)).(timer := Stopped), h.ioArg.value, ph)
  {
    hide XferOk, RestOk, Signals, QueueOk;
    QueueTail(h.port, h.transfers);
    if ph == Rest {
      SignalsTail(h.port, [], false, false);
    } else {
      SignalsTail(h.port, Token(ph, h.ioArg.value), h.serial.Replied?, h.timer == Fired);
      SignalsWithout(h.port[1..], Token(ph, h.ioArg.value), h.serial.Replied?, false);
      QueueWithout(h.port[1..], Kind.Serial, h.transfers);
    }
  }

  // ---------------------------------------------------------------------------------------
  // The messages
  // ---------------------------------------------------------------------------------------

  function SentChunk(t: Ftx): Ftx {
    t.(blknum := t.blknum + 1, state := DataSent)
  }

  function FailedChunk(t: Ftx, net: Net): Ftx {
    t.(blknum := t.blknum + 1, state := Error, error := SendError(net))
  }

  function ChunkPacket(t: Ftx): Packet
    requires t.buffers != [] && InBounds(t.buffers[0])
  {
    Data((t.blknum + 1) % TWO32 % 0x10000, Chunk(t.buffers[0]))
  }

  /** The two outcomes of sending a chunk, each as one change of the state. */
  lemma ChunkSent(h: H, i: nat, t: Ftx, net: Net)
    requires i < |h.transfers| && t.buffers != [] && InBounds(t.buffers[0]) && SendError(net) == 0
    requires (t.blknum + 1) % TWO32 == t.blknum + 1
    ensures SendChunk(SetFtx(h, i, t), i, net) ==
              SetFtx(StartIo(h.(ioType := WriteReturn), OpWrite(ChunkPacket(t))), i, SentChunk(t))
  {
    hide HasInternal, Chunk, InBounds, Fail;
    SetThrice(h.transfers, i, t, t.(blknum := t.blknum + 1), SentChunk(t));
  }

  lemma ChunkFailed(h: H, i: nat, t: Ftx, net: Net)
    requires i < |h.transfers| && t.buffers != [] && InBounds(t.buffers[0]) && SendError(net) != 0
    requires (t.blknum + 1) % TWO32 == t.blknum + 1
    ensures SendChunk(SetFtx(h, i, t), i, net) ==
              SendInternal(SetFtx(h.(ioType := WriteReturn), i, FailedChunk(t, net)).(busy := false), FileFailed(i))
  {
    hide HasInternal, Chunk, InBounds, StartIo, SendInternal;
    SetThrice(h.transfers, i, t, t.(blknum := t.blknum + 1), FailedChunk(t, net));
  }

  lemma SetThrice(ts: seq<Ftx>, i: nat, a: Ftx, b: Ftx, c: Ftx)
    requires i < |ts|
    ensures ts[i := a][i := b][i := c] == ts[i := c]
  {
  }

  /** Fields the link does not depend on may change. */
  lemma UpOther(h: H, h1: H, i: nat, ph: Phase)
    requires Up(h, i, ph)
    requires h1 == h.(ioType := h1.ioType, local := h1.local, tftppkt := h1.tftppkt)
    requires h1.local == h.local || h1.local == Some(i)
    ensures Up(h1, i, ph)
  {
    hide Signals, QueueOk, RestOk;
    XferSent(h.transfers[i], ph);
  }

  /** Sending a chunk of transfer record t, from a state in which transfer i has the link. */
  lemma ChunkInv(h: H, i: nat, ph: Phase, t: Ftx, net: Net)
    requires Up(h, i, ph) && t.buffers != [] && InBounds(t.buffers[0])
    requires (t.blknum + 1) % TWO32 == t.blknum + 1
    requires XferOk(SentChunk(t), DataOut) && RestOk(FailedChunk(t, net))
    ensures Inv(SendChunk(SetFtx(h, i, t), i, net), if SendError(net) == 0 then DataOut else Rest)
  {
    hide XferOk, RestOk, Inv, Up, SendChunk, StartIo, SendInternal;
    var h1 := h.(ioType := WriteReturn);
    UpXfer(h, i, ph);
    UpOther(h, h1, i, ph);
    if SendError(net) == 0 {
      ChunkSent(h, i, t, net);
      UpStart(h1, i, ph, SentChunk(t), OpWrite(ChunkPacket(t)), DataOut);
    } else {
      ChunkFailed(h, i, t, net);
      Release(h1, i, ph, FailedChunk(t, net), FileFailed(i));
    }
  }

  lemma NextBufferInv(h: H, i: nat, net: Net)
    requires Up(h, i, Next)
    ensures Inv(DoSendNextBuffer(h, i, net),
                if h.transfers[i].buffers != [] && SendError(net) == 0 then DataOut else Rest)
  {
    hide XferOk, RestOk, Inv, SendChunk, QueueOk, Signals, SendInternal;
    var t, h1 := h.transfers[i], h.(local := Some(i));
    UpOther(h, h1, i, Next);
    if t.buffers != [] {
      FirstChunkOk(t, SendError(net));
      assert h.transfers[i := t] == h.transfers;
      ChunkInv(h1, i, Next, t, net);
    } else {
      FinishOk(t);
      Release(h1, i, Next, t.(state := Finished), FileFinished(i));
    }
  }

  lemma ContinueInv(h: H, i: nat, net: Net)
    requires Up(h, i, Cont)
    ensures Inv(DoContinueBuffer(h, i, net), if SendError(net) == 0 then DataOut else Rest)
  {
    hide RestOk, Inv, SendChunk, QueueOk, Signals;
    var t, h1 := h.transfers[i], h.(local := Some(i));
    UpOther(h, h1, i, Cont);
    NextChunkOk(t, SendError(net));
    ChunkInv(h1, i, Cont, Advanced(t), net);
  }

  lemma BufferFinishedInv(h: H, i: nat)
    requires Up(h, i, BufDone)
    ensures Inv(DoBufferFinished(h, i), Next)
  {
    hide RestOk, Inv, QueueOk, Signals, SendInternal;
    var t, h1 := h.transfers[i], h.(local := Some(i));
    UpOther(h, h1, i, BufDone);
    ReleaseOk(t);
    UpPass(h1, i, BufDone, t.(buffers := t.buffers[1..]), Next);
  }

  lemma WriteReturnInv(h: H, ph: Phase, net: Net)
    requires h.port != [] && Inv(h, ph) && h.port[0] == SerialReply && h.ioType == WriteReturn
    requires h.ioArg.Some? && h.ioArg.value < |h.transfers|
    ensures Inv(DoWriteReturn(Rest1(h), h.ioArg.value, net.mem), if net.mem then ph else Rest)
  {
    hide XferOk, RestOk, Up, QueueOk, Signals, SendInternal;
    TakeSerial(h, ph);
    var i, h1 := h.ioArg.value, StopTimer(Rest1(h)).(serial := Idle);
    var h2 := h1.(ioType := ReadReturn);
    UpOther(h1, h2, i, ph);
    if net.mem {
      UpXfer(h1, i, ph);
      assert h2.transfers[i := h2.transfers[i]] == h2.transfers;
      UpStart(h2, i, ph, h2.transfers[i], OpRead, ph);
    } else {
      UpFail(h2, i, ph, ERROR_NO_FREE_STORE);
    }
  }

  lemma UpXfer(h: H, i: nat, ph: Phase)
    requires Up(h, i, ph)
    ensures i < |h.transfers| && XferOk(h.transfers[i], ph)
  {
  }

  lemma DownOther(h: H, h1: H, i: nat)
    requires Down(h, i) && h1 == h.(tftppkt := h1.tftppkt)
    ensures Down(h1, i)
  {
  }

  /** The reply extracted, or not, from a state in which transfer i still has the link. */
  lemma UpPacket(h: H, i: nat, ph: Phase, x: Extracted)
    requires Up(h, i, ph) && ph != BufDone
    ensures if x.Payload? then Up(TakePacket(h, i, x), i, ph) else Down(TakePacket(h, i, x), i)
  {
    UpXfer(h, i, ph);
    hide Up, Down, Fail;
    match x
    case Payload(_) => UpOther(h, TakePacket(h, i, x), i, ph);
    case Rejected(errno) => UpFail(h, i, ph, errno);
  }

  lemma DownPacket(h: H, i: nat, x: Extracted)
    requires Down(h, i)
    ensures Down(TakePacket(h, i, x), i)
  {
    hide Inv, Fail;
    match x
    case Payload(_) => DownOther(h, TakePacket(h, i, x), i);
    case Rejected(errno) => DownFail(h, i, errno);
  }

  /** The opcode switch for a transfer that failed in the same pass: it fails once more, or the
      handler stops because it finds an acknowledgement it does not expect. */
  lemma DownReply(h: H, i: nat)
    requires Down(h, i) && |h.tftppkt| >= 4
    ensures Unharmed(DoReply(h, i)) && (DoReply(h, i).running ==> Down(DoReply(h, i), i))
  {
    hide Inv, Fail, GetOpcode, GetBlknum;
    DownFail(h, i, ERROR_TFTP_GENERIC_ERROR);
    DownFail(h, i, ERROR_TFTP_UNKNOWN_OPCODE);
    InvFine(h, Rest);
    InvFine(Fail(h, i, ERROR_TFTP_GENERIC_ERROR), Rest);
    InvFine(Fail(h, i, ERROR_TFTP_UNKNOWN_OPCODE), Rest);
  }

  lemma GrantOk(t: Ftx)
    requires XferOk(t, WrqOut)
    ensures XferOk(t, Next)
  {
    UntouchedConserved(t);
  }

  /** The phase a received packet leads to while transfer t has the link. */
  function AfterReply(t: Ftx, tftppkt: seq<byte>): Phase
    requires |tftppkt| >= 4
  {
    if GetOpcode(tftppkt) != OP_ACK then Rest
    else if t.state == WrqSent then Next
    else if GetBlknum(tftppkt) != t.blknum then Rest
    else if t.buffers != [] && t.buffers[0].left > TFTP_MAX_DATA_SIZE then Cont
    else BufDone
  }

  lemma AckedInv(h: H, i: nat)
    requires Up(h, i, DataOut) && h.transfers[i].blknum <= MAX_BLOCKS
    ensures h.transfers[i].buffers != []
    ensures Inv(DoAcked(h, i), if h.transfers[i].buffers[0].left > TFTP_MAX_DATA_SIZE then Cont else BufDone)
  {
    hide RestOk, Inv, QueueOk, Signals, SendInternal, Chunk;
    var t := h.transfers[i];
    AckOk(t);
    UpPass(h, i, DataOut, Acked(t), if t.buffers[0].left > TFTP_MAX_DATA_SIZE then Cont else BufDone);
  }

  lemma UpReply(h: H, i: nat, ph: Phase)
    requires Up(h, i, ph) && (ph == WrqOut || ph == DataOut) && |h.tftppkt| >= 4
    ensures Inv(DoReply(h, i), AfterReply(h.transfers[i], h.tftppkt))
  {
    hide RestOk, Inv, QueueOk, Signals, SendInternal, GetOpcode, GetBlknum, DoAcked, Fail;
    UpFailInv(h, i, ph, ERROR_TFTP_GENERIC_ERROR);
    UpFailInv(h, i, ph, ERROR_TFTP_UNKNOWN_OPCODE);
    UpFailInv(h, i, ph, ERROR_TFTP_WRONG_BLOCK_NUM);
    var t := h.transfers[i];
    if ph == WrqOut {
      GrantOk(t);
      assert h.transfers[i := t] == h.transfers;
      UpPass(h, i, ph, t, Next);
    } else if t.blknum <= MAX_BLOCKS {
      AckedInv(h, i);
    }
  }

  lemma UpFailInv(h: H, i: nat, ph: Phase, error: nat)
    requires Up(h, i, ph) && ph != BufDone
    ensures Inv(Fail(h, i, error), Rest)
  {
    UpFail(h, i, ph, error);
  }

  /** What do_read_return sees of a reply. */
  function Seen(h: H, mem: bool): Extracted
    requires h.serial.Replied?
  {
    if mem then h.serial.reply else Rejected(ERROR_NO_FREE_STORE)
  }

  lemma ReadReturnInv(h: H, ph: Phase, mem: bool)
    requires PtrOk(h) && h.port != [] && Inv(h, ph) && h.port[0] == SerialReply && h.ioType == ReadReturn
    requires h.ioArg.Some? && PtrOk(Rest1(h)) && h.serial.Replied?
    ensures var r := DoReadReturn(Rest1(h), h.ioArg.value, mem);
            if h.serial.status == 0 && Seen(h, mem).Payload? then
              Inv(r, AfterReply(h.transfers[h.ioArg.value], Overlay(h.tftppkt, Seen(h, mem).bytes)))
            else Fine(r, Rest)
  {
    assert |h.tftppkt| >= 4;
    TakeSerial(h, ph);
    var i, u := h.ioArg.value, StopTimer(Rest1(h)).(serial := Idle);
    UpXfer(u, i, ph);
    hide XferOk, RestOk, Inv, Up, QueueOk, Signals, SendInternal, DoReply, Fail, Overlay, AfterReply, PtrOk;
    var x := Seen(h, mem);
    if h.serial.status > 0 {
      UpFail(u, i, ph, h.serial.status);
      DownPacket(Fail(u, i, h.serial.status), i, x);
      DownReply(TakePacket(Fail(u, i, h.serial.status), i, x), i);
    } else {
      UpPacket(u, i, ph, x);
      if x.Payload? {
        UpReply(TakePacket(u, i, x), i, ph);
      } else {
        DownReply(TakePacket(u, i, x), i);
      }
    }
  }

  /** The active transfer is left behind in flight. */
  lemma Strand(h: H, i: nat, ph: Phase)
    requires Up(h, i, ph) && (ph == WrqOut || ph == DataOut) && h.stranded
    ensures Inv(h.(busy := false), Rest)
  {
    hide Signals, QueueOk, Payloads, Unacked;
    StrandOk(h.transfers[i], ph);
    OthersUpdate(h.transfers, i, h.transfers[i], h.stranded);
    assert h.transfers[i := h.transfers[i]] == h.transfers;
  }

  /** A transfer without the link fails. */
  lemma RestFail(h: H, j: nat, error: nat)
    requires Inv(h, Rest) && h.local == Some(j) && j < |h.transfers|
    ensures Inv(Fail(h, j, error), Rest)
  {
    hide Signals, QueueOk, HasInternal, RestOk;
    var t := h.transfers[j].(state := Error, error := error);
    RestFailOk(h.transfers[j], error);
    OthersUpdate(h.transfers, j, t, h.stranded);
    LocalUpdate(h.local, h.transfers, j, t);
    QueueUpdate(h.port, h.transfers, j, t);
    QueueAppend(h.port, FileFailed(j), h.transfers[j := t]);
    SignalsAppend(h.port, FileFailed(j), [], false, false);
  }

  /** A timeout fails the transfer the local variable names, which need not be the active one. */
  lemma TimerInv(h: H, ph: Phase)
    requires h.port != [] && Inv(h, ph) && h.port[0] == TimerReply && PtrOk(Rest1(h))
    ensures Inv(DoTimerExpired(Rest1(h)), Rest)
  {
    hide XferOk, RestOk, Inv, Up, QueueOk, Signals, Fail, Abort, PtrOk;
    TakeTimer(h, ph);
    var u := Abort(Rest1(h)).(timer := Stopped);
    TimerLocal(h, ph);
    if h.local == h.ioArg {
      UpFailInv(u, h.ioArg.value, ph, ERROR_IO_TIMEOUT);
      assert DoTimerExpired(Rest1(h)) == Fail(u, h.ioArg.value, ERROR_IO_TIMEOUT);
    } else {
      var v := u.(stranded := true);
      UpStranded(u, h.ioArg.value, ph);
      Strand(v, h.ioArg.value, ph);
      RestFail(v.(busy := false), h.local.value, ERROR_IO_TIMEOUT);
      FailUnbusy(v, h.local.value, ERROR_IO_TIMEOUT);
      assert DoTimerExpired(Rest1(h)) == Fail(v, h.local.value, ERROR_IO_TIMEOUT);
    }
  }

  lemma TimerLocal(h: H, ph: Phase)
    requires Inv(h, ph) && ph != Rest && h.port != []
    ensures h.busy && h.local.Some? && h.local.value < |h.transfers|
    ensures Abort(Rest1(h)).local == h.local && Abort(Rest1(h)).ioArg == h.ioArg && Abort(Rest1(h)).busy == h.busy
    ensures Abort(Rest1(h)).stranded == h.stranded && |Abort(Rest1(h)).transfers| == |h.transfers|
  {
    hide Signals, QueueOk, RestOk, XferOk;
  }

  lemma UpStranded(h: H, i: nat, ph: Phase)
    requires Up(h, i, ph)
    ensures Up(h.(stranded := true), i, ph)
  {
    hide Signals, QueueOk, RestOk, XferOk;
  }

  lemma FailUnbusy(h: H, i: nat, error: nat)
    requires i < |h.transfers|
    ensures Fail(h.(busy := false), i, error) == Fail(h, i, error)
  {
    hide HasInternal;
  }

  // ---------------------------------------------------------------------------------------
  // Clients and wakeups
  // ---------------------------------------------------------------------------------------

  /** The record of a transfer that does not have the link may change. */
  lemma InvUpdate(h: H, ph: Phase, j: nat, t: Ftx)
    requires Inv(h, ph) && j < |h.transfers| && !Sent(h.transfers[j]) && RestOk(t) && !Sent(t)
    requires t.state == Queued ==> h.transfers[j].state == Queued
    requires QueueOk(h.port, h.transfers[j := t])
    ensures Inv(SetFtx(h, j, t), ph)
  {
    hide Signals, QueueOk, Payloads, Unacked;
    if ph != Rest {
      XferSent(h.transfers[h.ioArg.value], ph);
      assert j != h.ioArg.value;
    }
  }

  lemma InvWake(h: H, ph: Phase, m: Msg<nat>)
    requires Inv(h, ph) && KindOf(m) == Wake && WakeOk(m, h.transfers)
    ensures Inv(SendInternal(h, m), ph)
  {
    hide XferOk, RestOk, Signals, QueueOk, HasInternal;
    QueueAppend(h.port, m, h.transfers);
    if ph == Rest {
      SignalsAppend(h.port, m, [], false, false);
    } else {
      SignalsAppend(h.port, m, Token(ph, h.ioArg.value), h.serial.Replied?, h.timer == Fired);
    }
  }

  lemma InvLocal(h: H, ph: Phase, local: Option<nat>)
    requires Inv(h, ph) && LocalOk(local, h.transfers) && (ph == Rest || local.Some?)
    ensures Inv(h.(local := local), ph)
  {
    hide Signals, QueueOk, RestOk, XferOk;
  }

  /** Only the active transfer is in flight, so these are all at rest. */
  lemma AtRest(h: H, ph: Phase, j: nat)
    requires Inv(h, ph) && j < |h.transfers| && !Sent(h.transfers[j])
    ensures RestOk(h.transfers[j])
  {
    if ph != Rest {
      XferSent(h.transfers[h.ioArg.value], ph);
    }
  }

  lemma FindOutputInv(h: H, ph: Phase, name: CString, mem: bool)
    requires Inv(h, ph)
    ensures Inv(DoFindOutput(h, name, mem), ph)
  {
    hide XferOk, RestOk, Signals;
    NewOk(name);
    forall m | m in h.port
      ensures WakeOk(m, h.transfers + [NewFtx(name)])
    {
      assert WakeOk(m, h.transfers);
    }
  }

  lemma WriteInv(h: H, ph: Phase, j: nat, bytes: seq<byte>)
    requires Inv(h, ph) && j < |h.transfers| && h.transfers[j].state == Queued
    ensures Inv(DoWrite(h, j, bytes, true), ph)
  {
    hide Signals, RestOk, XferOk;
    AtRest(h, ph, j);
    var t := Written(h.transfers[j], bytes);
    WriteOk(h.transfers[j], bytes);
    QueueUpdate(h.port, h.transfers, j, t);
    InvUpdate(h, ph, j, t);
  }

  lemma EndQueue(h: H, j: nat)
    requires QueueOk(h.port, h.transfers) && ClientsOk([End(j)] + Of(h.port, Client), h.transfers)
    ensures j < |h.transfers| && h.transfers[j].state == Queued
    ensures QueueOk(h.port, h.transfers[j := h.transfers[j].(state := Ready)])
  {
    var cl := Of(h.port, Client);
    var all := [End(j)] + cl;
    assert all[0] == End(j);
    var ts := h.transfers[j := h.transfers[j].(state := Ready)];
    forall p | 0 <= p < |cl| && (cl[p].Write? || cl[p].End?)
      ensures cl[p].ftx < |ts| && ts[cl[p].ftx].state == Queued
    {
      assert all[p + 1] == cl[p] && !Refers(all[p + 1], j);
    }
    forall m | m in h.port
      ensures WakeOk(m, ts)
    {
      assert WakeOk(m, h.transfers);
    }
  }

  lemma EndInv(h: H, ph: Phase, j: nat)
    requires Inv(h, ph) && ClientsOk([End(j)] + Of(h.port, Client), h.transfers)
    ensures j < |h.transfers| && Inv(DoEnd(h, j), ph)
  {
    hide Signals, XferOk, SendInternal;
    EndQueue(h, j);
    AtRest(h, ph, j);
    var t := h.transfers[j].(state := Ready);
    InvUpdate(h, ph, j, t);
    InvLocal(SetFtx(h, j, t), ph, Some(j));
    InvWake(SetFtx(h, j, t).(local := Some(j)), ph, SendNextFile);
  }

  lemma FileDoneInv(h: H, ph: Phase, j: nat)
    requires Inv(h, ph) && j < |h.transfers|
    requires h.transfers[j].state == Error || h.transfers[j].state == Finished
    ensures Inv(DoFileDone(h, j), ph)
  {
    hide Signals, XferOk, RestOk, SendInternal, Unacked;
    AtRest(h, ph, j);
    var t := h.transfers[j];
    var t1 := t.(buffers := [], dropped := t.dropped + Unacked(t.buffers));
    DropOk(t);
    QueueUpdate(h.port, h.transfers, j, t1);
    InvUpdate(h, ph, j, t1);
    InvLocal(SetFtx(h, j, t1), ph, Some(j));
    InvWake(SetFtx(h, j, t1).(local := Some(j)), ph, SendNextFile);
  }

  /** The state from which a picked file's write request is sent. */
  function Picked(h: H, i: nat): H {
    h.(busy := true, local := Some(i), ioType := WriteReturn, ioArg := Some(i), started := h.started + [i])
  }

  lemma PickInv(h: H, i: nat, net: Net)
    requires Inv(h, Rest) && i < |h.transfers| && h.transfers[i].state == Ready
    ensures Inv(Send(Picked(h, i), i, Wrq(h.transfers[i].name), WrqSent, net),
                if SendError(net) == 0 then WrqOut else Rest)
  {
    hide Signals, QueueOk, HasInternal, OthersOk, LocalOk, XferOk, RestOk;
    var t := h.transfers[i];
    var sent, failed := t.(state := WrqSent), t.(state := Error, error := SendError(net));
    AtRest(h, Rest, i);
    PickRecord(t, SendError(net));
    OthersBut(h.transfers, i, h.stranded);
    if SendError(net) == 0 {
      QueueUpdate(h.port, h.transfers, i, sent);
      OthersUpdate(h.transfers, i, sent, h.stranded);
      LocalUpdate(Some(i), h.transfers, i, sent);
    } else {
      QueueUpdate(h.port, h.transfers, i, failed);
      OthersUpdate(h.transfers, i, failed, h.stranded);
      LocalUpdate(Some(i), h.transfers, i, failed);
      QueueAppend(h.port, FileFailed(i), h.transfers[i := failed]);
      SignalsAppend(h.port, FileFailed(i), [], false, false);
    }
  }

  lemma OthersBut(ts: seq<Ftx>, i: nat, stranded: bool)
    requires OthersOk(ts, |ts|, stranded) && i < |ts| && ts[i].state != Queued
    ensures OthersOk(ts, i, stranded) && LocalOk(Some(i), ts)
  {
    hide RestOk;
  }

  lemma PickRecord(t: Ftx, error: nat)
    requires t.state == Ready && RestOk(t)
    ensures XferOk(t.(state := WrqSent), WrqOut) && RestOk(t.(state := Error, error := error))
  {
    hide Unacked, Payloads;
    UntouchedConserved(t);
  }

  /** The phase after ACTION_SEND_NEXT_FILE. */
  function AfterPick(ts: seq<Ftx>, ph: Phase, net: Net): Phase {
    if ph == Rest && NextReady(ts, 0).Some? && SendError(net) == 0 then WrqOut else ph
  }

  lemma SendNextFileInv(h: H, ph: Phase, net: Net)
    requires Inv(h, ph)
    ensures Inv(DoSendNextFile(h, net), AfterPick(h.transfers, ph, net))
  {
    hide Signals, XferOk, RestOk, QueueOk, Send;
    if ph == Rest {
      match NextReady(h.transfers, 0)
      case None => InvLocal(h, ph, None);
      case Some(i) => PickInv(h, i, net);
    }
  }

  // ---------------------------------------------------------------------------------------
  // Every move of an orderly run keeps the invariant
  // ---------------------------------------------------------------------------------------

  /** The phase after the first message has been handled. */
  function NextPhase(h: H, ph: Phase, net: Net): Phase
    requires PtrOk(h) && h.port != []
  {
    assert Points(h.port[0], |h.transfers|);
    match h.port[0]
    case SendNextFile => AfterPick(h.transfers, ph, net)
    case SendNextBuffer(i) => if h.transfers[i].buffers != [] && SendError(net) == 0 then DataOut else Rest
    case ContinueBuffer(_) => if SendError(net) == 0 then DataOut else Rest
    case BufferFinished(_) => Next
    case TimerReply => Rest
    case SerialReply =>
      if h.ioType == WriteReturn then if net.mem then ph else Rest
      else if h.ioArg.Some? && h.serial.Replied? && h.serial.status == 0 && Seen(h, net.mem).Payload? then
        AfterReply(h.transfers[h.ioArg.value], Overlay(h.tftppkt, Seen(h, net.mem).bytes))
      else Rest
    case _ => ph
  }

  /** The first message refers to transfers that exist, and so do the others without it. */
  lemma HeadPoints(h: H)
    requires PtrOk(h) && h.port != []
    ensures Points(h.port[0], |h.transfers|) && PtrOk(Rest1(h))
  {
  }

  lemma DieFine(h: H, ph: Phase)
    requires Inv(h, ph)
    ensures Fine(Abort(h).(running := false), ph)
  {
  }

  lemma HandleOther(h: H, ph: Phase, net: Net)
    requires PtrOk(h) && h.port != [] && Inv(h, ph) && Orderly(h, Step(net))
    requires KindOf(h.port[0]) == Client || KindOf(h.port[0]) == Wake
    ensures Fine(Handle(h, net), NextPhase(h, ph, net))
  {
    hide Inv, PtrOk, DoFindOutput, DoWrite, DoEnd, DoSendNextFile, DoFileDone, Abort, AfterPick;
    var m, h1 := h.port[0], Rest1(h);
    HeadPoints(h);
    var r, next := Handle(h, net), NextPhase(h, ph, net);
    TakeOther(h, ph);
    HeadFacts(h, ph);
    match m
    case FindOutput(name) => FindOutputInv(h1, ph, name, net.mem); InvFine(r, next);
    case Write(i, bytes) => WriteInv(h1, ph, i, bytes); InvFine(r, next);
    case End(i) => EndInv(h1, ph, i); InvFine(r, next);
    case Die => DieFine(h1, ph);
    case Other => InvFine(r, next);
    case SendNextFile => SendNextFileInv(h1, ph, net); InvFine(r, next);
    case FileFinished(i) => FileDoneInv(h1, ph, i); InvFine(r, next);
    case FileFailed(i) => FileDoneInv(h1, ph, i); InvFine(r, next);
  }

  lemma HandleActive(h: H, ph: Phase, net: Net)
    requires PtrOk(h) && h.port != [] && Inv(h, ph) && KindOf(h.port[0]) == Active
    ensures Fine(Handle(h, net), NextPhase(h, ph, net))
  {
    hide Inv, Up, PtrOk, DoSendNextBuffer, DoContinueBuffer, DoBufferFinished;
    var m, h1 := h.port[0], Rest1(h);
    HeadPoints(h);
    var r, next := Handle(h, net), NextPhase(h, ph, net);
    TakeToken(h, ph);
    match m
    case SendNextBuffer(i) => NextBufferInv(h1, i, net); InvFine(r, next);
    case ContinueBuffer(i) => ContinueInv(h1, i, net); InvFine(r, next);
    case BufferFinished(i) => BufferFinishedInv(h1, i); InvFine(r, next);
  }

  lemma HandleReply(h: H, ph: Phase, net: Net)
    requires PtrOk(h) && h.port != [] && Inv(h, ph) && h.port[0] == SerialReply
    ensures Fine(Handle(h, net), NextPhase(h, ph, net))
  {
    hide Inv, Up, PtrOk, DoWriteReturn, DoReadReturn, AfterReply, Overlay, StopTimer;
    HeadPoints(h);
    TakeSerial(h, ph);
    ReplyType(h, ph);
    if h.ioType == WriteReturn {
      WriteReturnInv(h, ph, net);
      InvFine(Handle(h, net), NextPhase(h, ph, net));
    } else {
      ReadReturnInv(h, ph, net.mem);
      if h.serial.status == 0 && Seen(h, net.mem).Payload? {
        InvFine(Handle(h, net), NextPhase(h, ph, net));
      }
    }
  }

  lemma HandleTimer(h: H, ph: Phase, net: Net)
    requires PtrOk(h) && h.port != [] && Inv(h, ph) && h.port[0] == TimerReply
    ensures Inv(Handle(h, net), Rest)
  {
    hide Inv, PtrOk, DoTimerExpired;
    HeadPoints(h);
    TimerInv(h, ph);
  }

  lemma HandleInv(h: H, ph: Phase, net: Net)
    requires PtrOk(h) && h.port != [] && Inv(h, ph) && Orderly(h, Step(net))
    ensures Fine(Handle(h, net), NextPhase(h, ph, net))
  {
    hide Inv, PtrOk, Handle;
    var m := h.port[0];
    if KindOf(m) == Client || KindOf(m) == Wake {
      HandleOther(h, ph, net);
    } else if KindOf(m) == Active {
      HandleActive(h, ph, net);
    } else if m == SerialReply {
      HandleReply(h, ph, net);
    } else {
      HandleTimer(h, ph, net);
      InvFine(Handle(h, net), Rest);
    }
  }

  lemma HeadFacts(h: H, ph: Phase)
    requires h.port != [] && Inv(h, ph)
    ensures WakeOk(h.port[0], h.transfers)
    ensures KindOf(h.port[0]) == Client ==> ClientsOk([h.port[0]] + Of(h.port[1..], Client), h.transfers)
    ensures h.port[0].Write? ==> h.port[0].ftx < |h.transfers| && h.transfers[h.port[0].ftx].state == Queued
  {
    hide XferOk, RestOk, Signals;
    QueueTail(h.port, h.transfers);
    if KindOf(h.port[0]) == Client {
      assert ([h.port[0]] + Of(h.port[1..], Client))[0] == h.port[0];
    }
  }

  lemma ReplyType(h: H, ph: Phase)
    requires Inv(h, ph) && h.serial != Idle
    ensures h.ioType != NoIo && h.ioArg.Some? && h.ioArg.value < |h.transfers|
  {
  }

  /** The phase after a move. */
  function PhaseAfter(h: H, ph: Phase, mv: Move): Phase
    requires PtrOk(h) && Possible(h, mv)
  {
    if mv.Step? then NextPhase(h, ph, mv.net) else ph
  }

  lemma ClientInv(h: H, ph: Phase, m: Msg<nat>)
    requires Inv(h, ph) && Polite(h, ClientSends(m)) && KindOf(m) == Client
    ensures Inv(h.(port := h.port + [m]), ph)
  {
    hide XferOk, RestOk, Signals, QueueOk;
    QueueAppend(h.port, m, h.transfers);
    if ph == Rest {
      SignalsAppend(h.port, m, [], false, false);
    } else {
      SignalsAppend(h.port, m, Token(ph, h.ioArg.value), h.serial.Replied?, h.timer == Fired);
    }
  }

  lemma DeviceInv(h: H, ph: Phase, status: nat, reply: Extracted)
    requires Inv(h, ph) && h.serial.Pending? && (h.serial.op.OpWrite? ==> status == 0)
    ensures Inv(h.(serial := Replied(h.serial.op, status, reply), port := h.port + [SerialReply]), ph)
  {
    hide XferOk, RestOk, Signals, QueueOk;
    QueueAppend(h.port, SerialReply, h.transfers);
    if ph != Rest {
      SignalsAppend(h.port, SerialReply, Token(ph, h.ioArg.value), false, h.timer == Fired);
    }
  }

  lemma TimerFiresInv(h: H, ph: Phase)
    requires Inv(h, ph) && h.timer == Running
    ensures Inv(h.(timer := Fired, port := h.port + [TimerReply]), ph)
  {
    hide XferOk, RestOk, Signals, QueueOk;
    QueueAppend(h.port, TimerReply, h.transfers);
    if ph != Rest {
      SignalsAppend(h.port, TimerReply, Token(ph, h.ioArg.value), h.serial.Replied?, false);
    }
  }

  lemma ApplyInv(h: H, ph: Phase, mv: Move)
    requires PtrOk(h) && Possible(h, mv) && Inv(h, ph) && Orderly(h, mv)
    ensures Fine(Apply(h, mv), PhaseAfter(h, ph, mv))
  {
    hide Inv, PtrOk, Handle, NextPhase;
    match mv
    case Step(net) => HandleInv(h, ph, net);
    case ClientSends(m) => ClientInv(h, ph, m); InvFine(Apply(h, mv), ph);
    case WriteDone(status) => DeviceInv(h, ph, status, Payload([])); InvFine(Apply(h, mv), ph);
    case ReadDone(status, reply) => DeviceInv(h, ph, status, reply); InvFine(Apply(h, mv), ph);
    case TimerFires => TimerFiresInv(h, ph); InvFine(Apply(h, mv), ph);
  }

  lemma {:induction false} RunInv(h: H, ph: Phase, moves: seq<Move>) returns (last: Phase)
    requires PtrOk(h) && PossibleRun(h, moves) && Throughout(h, moves, Orderly) && Fine(h, ph)
    ensures Fine(After(h, moves), last)
    decreases |moves|
  {
    hide Inv, PtrOk, Apply, NextPhase;
    last := ph;
    if moves != [] {
      ApplyInv(h, ph, moves[0]);
      last := RunInv(Apply(h, moves[0]), PhaseAfter(h, ph, moves[0]), moves[1..]);
    }
  }
}

/** The handler, a lossless serial line and a server, together: what the server stores. */
module Delivery {
  import opened Bytes
  import opened Messages
  import opened Packets
  import opened Engine
  import opened Files
  import opened Ownership
  import opened Effects
  import opened Overtaking
  import opened Server
  import opened Intake

  /** The line holds the replies not yet read. The last two fields are history: owners[k] is the
      transfer whose write request opened session k, and clean holds the transfers that were picked
      while no reply was left on the line. */
  datatype Sys = Sys(h: H, sessions: seq<Session>, line: seq<seq<byte>>, owners: seq<nat>, clean: set<nat>)

  /** A write is complete once the server has its frame. A read brings the oldest reply, in headers the
      server chooses and with foreign memory behind it, or ends with an error and any data at all. */
  datatype Event =
    | Pass(net: Net)
    | ClientMsg(msg: Msg<nat>)
    | WriteEnds
    | ReadEnds(headers: seq<byte>, tail: seq<byte>)
    | ReadFails(status: nat, data: Extracted)
    | TimerEnds

  function Image(s: Sys, ev: Event): seq<byte>
    requires ev.ReadEnds? && s.line != []
  {
    Slip.Frame(ev.headers + s.line[0]) + ev.tail
  }

  function ImageSize(s: Sys, ev: Event): nat
    requires ev.ReadEnds? && s.line != []
  {
    |Slip.Frame(ev.headers + s.line[0])|
  }

  predicate Readable1(s: Sys, ev: Event) {
    ev.ReadEnds? ==>
      s.line != [] && IsImage(Image(s, ev), ImageSize(s, ev), s.line[0], ev.headers, ev.tail)
  }

  /** The move of the handler's world an event is. */
  function MoveOf(s: Sys, ev: Event): Move
    requires Readable1(s, ev)
  {
    match ev
    case Pass(net) => Step(net)
    case ClientMsg(m) => ClientSends(m)
    case WriteEnds => WriteDone(0)
    case ReadEnds(_, _) => ReadDone(0, Extract(Image(s, ev), ImageSize(s, ev)))
    case ReadFails(status, data) => ReadDone(status, data)
    case TimerEnds => TimerFires
  }

  /** The frame a pass sends is the one netio.c builds. */
  predicate FitsTold(h: H, net: Net)
    requires PtrOk(h) && h.port != []
  {
    Outgoing(h).Some? ==> (net.fits <==> Fits(TftpBytes(Outgoing(h).value)))
  }

  /** A pass in which memory suffices. */
  function FullPass(h: H): Net
    requires PtrOk(h) && h.port != []
  {
    Net(true, Outgoing(h).Some? && Fits(TftpBytes(Outgoing(h).value)))
  }

  lemma FullPassTold(h: H)
    requires PtrOk(h) && h.port != []
    ensures FitsTold(h, FullPass(h))
  {
    hide PtrOk, Outgoing, Fits, TftpBytes;
  }

  predicate Allowed(s: Sys, ev: Event) {
    && PtrOk(s.h) && Readable1(s, ev)
    && Possible(s.h, MoveOf(s, ev)) && Orderly(s.h, MoveOf(s, ev))
    && (ev.Pass? ==> FitsTold(s.h, ev.net))
    && (ev.ReadFails? ==> ev.status > 0)
  }

  /** What the server makes of the frame on the line. */
  function Arrived(h: H): Option<Packet>
    requires h.serial.Pending? && h.serial.op.OpWrite?
  {
    match Deliver(FrameOf(TftpBytes(h.serial.op.data)))
    case None => None
    case Some(r) => Some(r.packet)
  }

  function Next1(s: Sys, ev: Event): Sys
    requires Allowed(s, ev)
  {
    var h1 := Apply(s.h, MoveOf(s, ev));
    match ev
    case Pass(_) =>
      s.(h := h1, clean := if Starts(s.h).Some? && s.line == [] then s.clean + {Starts(s.h).value} else s.clean)
    case WriteEnds =>
      (match Arrived(s.h)
       case None => s.(h := h1)
       case Some(p) =>
         s.(h := h1, sessions := Serve(s.sessions, p), line := s.line + [Reply(s.sessions, p)],
            owners := if p.Wrq? && s.h.ioArg.Some? then s.owners + [s.h.ioArg.value] else s.owners))
    case ReadEnds(_, _) => s.(h := h1, line := s.line[1..])
    case _ => s.(h := h1)
  }

  // ---------------------------------------------------------------------------------------
  // The invariant
  // ---------------------------------------------------------------------------------------

  /** A session holds the first payloads of the file of its owner. */
  predicate OwnerOk(s: Session, owner: nat, ts: seq<Ftx>) {
    && SessionOk(s) && owner < |ts| && !Waiting(ts[owner])
    && s.name == ts[owner].name && s.got <= Payloads(ts[owner].writes)
  }

  predicate Archive(sessions: seq<Session>, owners: seq<nat>, ts: seq<Ftx>) {
    && |owners| == |sessions|
    && (forall k :: 0 <= k < |sessions| ==> OwnerOk(sessions[k], owners[k], ts))
    && (forall k, l :: 0 <= k < l < |owners| ==> owners[k] != owners[l])
  }

  /** A finished file is stored up to its first short payload, and as a whole if it was picked with a
      quiet line. */
  predicate StoredAs(s: Session, writes: seq<seq<byte>>, quiet: bool) {
    Follows(s, Payloads(writes)) && (quiet ==> s.got == Payloads(writes))
  }

  predicate Stored(sessions: seq<Session>, owners: seq<nat>, i: nat, t: Ftx, quiet: bool) {
    exists k :: 0 <= k < |owners| && k < |sessions| && owners[k] == i && StoredAs(sessions[k], t.writes, quiet)
  }

  predicate AllStored(sessions: seq<Session>, owners: seq<nat>, clean: set<nat>, ts: seq<Ftx>) {
    forall i :: 0 <= i < |ts| && ts[i].state == Finished ==> Stored(sessions, owners, i, ts[i], i in clean)
  }

  /** Where the packet of the active transfer is: not at the server yet, answered but the answer not
      read yet, read but not handled yet; or there is none. */
  datatype Stage = Going | Answered | Read(status: nat, data: Extracted) | Between

  function StageOf(serial: Request<Packet, Extracted>): Stage {
    match serial
    case Idle => Between
    case Pending(OpWrite(_)) => Going
    case Replied(OpWrite(_), _, _) => Answered
    case Pending(OpRead) => Answered
    case Replied(OpRead, status, data) => Read(status, data)
  }

  function ChunkOf(t: Ftx): seq<byte> {
    if t.buffers != [] && InBounds(t.buffers[0]) then Chunk(t.buffers[0]) else []
  }

  /** The payloads the server has been sent for transfer t once its current packet has arrived. */
  function SentTo(t: Ftx, ph: Phase): seq<seq<byte>> {
    if ph == DataOut then t.acked + [ChunkOf(t)] else t.acked
  }

  /** The server has been sent these payloads, each in a packet with its number, and has accepted them
      up to the first short one. */
  predicate Follows(s: Session, d: seq<seq<byte>>) {
    s.got <= d && (!s.done ==> s.got == d) && s.heard == Numbered(d)
  }

  function Expected(s: Session, t: Ftx, ph: Phase): seq<byte> {
    if ph == WrqOut then AckBytes(0)
    else if s.got == SentTo(t, ph) then AckBytes(Wire(t.blknum))
    else ErrorBytes(ILLEGAL)
  }

  /** At most the payload in flight is missing. */
  predicate InStep(s: Session, t: Ftx, ph: Phase) {
    s.got == t.acked || s.got == SentTo(t, ph)
  }

  /** The session of the active transfer, and the line: quiet says it was picked with a quiet line. */
  predicate LineOk(session: Option<Session>, line: seq<seq<byte>>, quiet: bool, t: Ftx, ph: Phase, stage: Stage) {
    match stage
    case Going =>
      if ph == WrqOut then session == None && (quiet ==> line == [])
      else session.Some? && Follows(session.value, t.acked) && (quiet ==> line == [] && session.value.got == t.acked)
    case Answered =>
      session.Some? && Follows(session.value, SentTo(t, ph))
      && (quiet ==> line == [Expected(session.value, t, ph)] && InStep(session.value, t, ph))
    case Read(status, data) =>
      session.Some? && Follows(session.value, SentTo(t, ph))
      && (quiet ==> InStep(session.value, t, ph))
      && (quiet && status == 0 ==>
            line == [] && (data.Payload? ==> Expected(session.value, t, ph) <= data.bytes))
    case Between =>
      session.Some? && Follows(session.value, t.acked) && (quiet ==> line == [] && session.value.got == t.acked)
  }

  /** The session of transfer i, if the last one is its own. */
  function SessionFor(sessions: seq<Session>, owners: seq<nat>, i: nat): Option<Session>
    requires |owners| == |sessions|
  {
    if owners != [] && owners[|owners| - 1] == i then Some(sessions[|sessions| - 1]) else None
  }

  /** No earlier session belongs to the active transfer. */
  predicate OnlyLast(owners: seq<nat>, i: nat) {
    forall k :: 0 <= k < |owners| - 1 ==> owners[k] != i
  }

  predicate ActiveOk(s: Sys, ph: Phase) {
    ph != Rest ==>
      && s.h.ioArg.Some? && s.h.ioArg.value < |s.h.transfers| && |s.owners| == |s.sessions|
      && OnlyLast(s.owners, s.h.ioArg.value)
      && LineOk(SessionFor(s.sessions, s.owners, s.h.ioArg.value), s.line, s.h.ioArg.value in s.clean,
                s.h.transfers[s.h.ioArg.value], ph, StageOf(s.h.serial))
  }

  predicate Books(s: Sys) {
    && Archive(s.sessions, s.owners, s.h.transfers)
    && AllStored(s.sessions, s.owners, s.clean, s.h.transfers)
    && Begun(s.clean, s.h.transfers)
  }

  predicate Begun(clean: set<nat>, ts: seq<Ftx>) {
    forall i :: i in clean ==> i < |ts| && !Waiting(ts[i])
  }

  predicate SysInv(s: Sys, ph: Phase) {
    Books(s) && Fine(s.h, ph) && (s.h.running ==> ActiveOk(s, ph))
  }

  // ---------------------------------------------------------------------------------------
  // A pass of the handler leaves the archive in order
  // ---------------------------------------------------------------------------------------

  /** No file is finished that was not before, and files that have been started stay what they are. */
  predicate Lasting(a: seq<Ftx>, b: seq<Ftx>) {
    && |a| <= |b|
    && (forall j :: 0 <= j < |b| && b[j].state == Finished ==> j < |a| && a[j].state == Finished)
    && (forall j :: 0 <= j < |a| && !Waiting(a[j]) ==>
          b[j].name == a[j].name && b[j].writes == a[j].writes && !Waiting(b[j]))
  }

  lemma KeptLasting(h: H, r: H, i: nat)
    requires Kept(h, r, i)
    ensures Lasting(h.transfers, r.transfers)
  {
  }

  lemma SetLasting(a: seq<Ftx>, j: nat, t: Ftx)
    requires j < |a| && (t.state == Finished ==> a[j].state == Finished)
    requires !Waiting(a[j]) ==> t.name == a[j].name && t.writes == a[j].writes && !Waiting(t)
    ensures Lasting(a, a[j := t])
  {
  }

  lemma PickLasting(h: H, net: Net)
    requires PtrOk(h) && h.port != [] && h.port[0] == SendNextFile
    ensures Lasting(h.transfers, Handle(h, net).transfers)
  {
    hide PtrOk, Send, HasInternal, Kept;
    var h1 := Rest1(h);
    match Starts(h)
    case None => KeptSame(h1, Handle(h, net), 0); KeptLasting(h1, Handle(h, net), 0);
    case Some(i) =>
      var h2 := Picked(h1, i);
      KeptSend(h2, i, Wrq(h.transfers[i].name), WrqSent, net);
      KeptLasting(h2, Handle(h, net), i);
  }

  lemma WriteLasting(h: H, j: nat, bytes: seq<byte>, net: Net)
    requires PtrOk(h) && h.port != [] && h.port[0] == Write(j, bytes) && net.mem
    requires j < |h.transfers| && h.transfers[j].state == Queued
    ensures Lasting(h.transfers, Handle(h, net).transfers)
  {
    hide PtrOk, Lasting;
    HeadPoints(h);
    SetLasting(h.transfers, j, Written(h.transfers[j], bytes));
  }

  lemma EndLasting(h: H, j: nat, net: Net)
    requires PtrOk(h) && h.port != [] && h.port[0] == End(j) && j < |h.transfers| && h.transfers[j].state == Queued
    ensures Lasting(h.transfers, Handle(h, net).transfers)
  {
    hide PtrOk, Lasting, HasInternal;
    SetLasting(h.transfers, j, h.transfers[j].(state := Ready));
  }

  lemma OtherLasting(h: H, net: Net)
    requires PtrOk(h) && h.port != [] && (h.port[0].FindOutput? || h.port[0] == Die || h.port[0] == Other)
    ensures Lasting(h.transfers, Handle(h, net).transfers)
  {
    hide PtrOk, Without, Min;
  }

  lemma ClientLasting(h: H, ph: Phase, net: Net)
    requires PtrOk(h) && h.port != [] && Inv(h, ph) && KindOf(h.port[0]) == Client && Orderly(h, Step(net))
    ensures Lasting(h.transfers, Handle(h, net).transfers)
  {
    hide Inv, PtrOk, Handle, Lasting;
    HeadFacts(h, ph);
    match h.port[0]
    case Write(i, bytes) => WriteLasting(h, i, bytes, net);
    case End(i) => EndHead(h, i); EndLasting(h, i, net);
    case _ => OtherLasting(h, net);
  }

  lemma SerialLasting(h: H, net: Net)
    requires PtrOk(h) && h.port != [] && h.port[0] == SerialReply
    ensures Lasting(h.transfers, Handle(h, net).transfers)
  {
    hide Kept, Lasting, DoWriteReturn, DoReadReturn, Acknowledges, PtrOk;
    HeadPoints(h);
    ArgPoints(h);
    var h1, r := Rest1(h), Handle(h, net);
    if h.ioArg.None? || h.ioType == NoIo {
      KeptSame(h1, r, 0);
      KeptLasting(h1, r, 0);
    } else if h.ioType == WriteReturn {
      KeptWriteReturn(h1, h.ioArg.value, net.mem);
      KeptLasting(h1, r, h.ioArg.value);
    } else if HasData(h.serial) && Acknowledges(Opened(h1, h.ioArg.value, net.mem), h.ioArg.value) {
      AckEffect(h1, h.ioArg.value, net.mem);
      AckSettled(h1, Overlay(h.tftppkt, h.serial.reply.bytes), h.ioArg.value);
    } else {
      KeptReadReturn(h1, h.ioArg.value, net.mem);
      KeptLasting(h1, r, h.ioArg.value);
    }
  }

  lemma AckSettled(h: H, tftppkt: seq<byte>, i: nat)
    requires i < |h.transfers| && |tftppkt| >= 4 && Acknowledges(h.(tftppkt := tftppkt), i)
    ensures Lasting(h.transfers, h.transfers[i := Acked(h.transfers[i])])
  {
    hide GetOpcode, GetBlknum, InBounds, Chunk;
    SetLasting(h.transfers, i, Acked(h.transfers[i]));
  }

  lemma HandleLasting(h: H, ph: Phase, net: Net)
    requires PtrOk(h) && h.port != [] && Inv(h, ph) && Orderly(h, Step(net)) && !Finishing(h)
    ensures Lasting(h.transfers, Handle(h, net).transfers)
  {
    hide Inv, Lasting, Kept, PtrOk, DoSendNextBuffer, DoContinueBuffer, DoBufferFinished, DoFileDone, DoTimerExpired,
         DoSendNextFile, DoSerialReply, DoFindOutput, DoWrite, DoEnd, Abort;
    HeadPoints(h);
    var m, h1 := h.port[0], Rest1(h);
    match m
    case SendNextFile => PickLasting(h, net);
    case SendNextBuffer(_) => KeptActive(h1, m, net); KeptLasting(h1, Handle(h, net), m.ftx);
    case ContinueBuffer(_) => KeptActive(h1, m, net); KeptLasting(h1, Handle(h, net), m.ftx);
    case BufferFinished(_) => KeptActive(h1, m, net); KeptLasting(h1, Handle(h, net), m.ftx);
    case FileFinished(i) => KeptDone(h1, i); KeptLasting(h1, Handle(h, net), i);
    case FileFailed(i) => KeptDone(h1, i); KeptLasting(h1, Handle(h, net), i);
    case TimerReply => KeptTimer(h1); KeptLasting(h1, Handle(h, net), TimedOut(h1));
    case SerialReply => SerialLasting(h, net);
    case FindOutput(_) => ClientLasting(h, ph, net);
    case Write(_, _) => ClientLasting(h, ph, net);
    case End(_) => ClientLasting(h, ph, net);
    case Die => ClientLasting(h, ph, net);
    case Other => ClientLasting(h, ph, net);
  }

  lemma LastingArchive(sessions: seq<Session>, owners: seq<nat>, a: seq<Ftx>, b: seq<Ftx>)
    requires Archive(sessions, owners, a) && Lasting(a, b)
    ensures Archive(sessions, owners, b)
  {
    hide SessionOk, Payloads;
    forall k | 0 <= k < |sessions|
      ensures OwnerOk(sessions[k], owners[k], b)
    {
      assert OwnerOk(sessions[k], owners[k], a);
    }
  }

  lemma LastingStored(
    sessions: seq<Session>, owners: seq<nat>, clean: set<nat>, more: set<nat>, a: seq<Ftx>, b: seq<Ftx>)
    requires AllStored(sessions, owners, clean, a) && Lasting(a, b)
    requires forall i :: (i in more <==> i in clean) || (0 <= i < |b| ==> b[i].state != Finished)
    ensures AllStored(sessions, owners, more, b)
  {
    hide StoredAs;
    forall i | 0 <= i < |b| && b[i].state == Finished
      ensures Stored(sessions, owners, i, b[i], i in more)
    {
      assert Stored(sessions, owners, i, a[i], i in clean);
    }
  }

  // ---------------------------------------------------------------------------------------
  // A pass of the handler keeps step with the line
  // ---------------------------------------------------------------------------------------

  lemma InvActive(h: H, ph: Phase)
    requires Inv(h, ph) && ph != Rest
    ensures h.ioArg.Some? && h.ioArg.value < |h.transfers| && h.busy && Sent(h.transfers[h.ioArg.value])
    ensures XferOk(h.transfers[h.ioArg.value], ph)
    ensures h.serial == Idle <==> ph != WrqOut && ph != DataOut
  {
    XferSent(h.transfers[h.ioArg.value], ph);
  }

  /** Clients and wakeups do not touch the active transfer. */
  predicate SameActive(h: H, r: H) {
    && r.ioArg == h.ioArg && r.serial == h.serial
    && (h.ioArg.Some? ==> h.ioArg.value < |h.transfers| && h.ioArg.value < |r.transfers|
                          && r.transfers[h.ioArg.value] == h.transfers[h.ioArg.value])
  }

  lemma OtherActive(h: H, ph: Phase, net: Net)
    requires PtrOk(h) && h.port != [] && Inv(h, ph) && ph != Rest && Orderly(h, Step(net))
    requires KindOf(h.port[0]) == Client || KindOf(h.port[0]) == Wake
    requires h.port[0] != Die
    ensures SameActive(h, Handle(h, net)) && Starts(h) == None
  {
    hide Inv, PtrOk, SameActive, DoFindOutput, DoWrite, DoEnd, DoFileDone;
    HeadPoints(h);
    HeadFacts(h, ph);
    InvActive(h, ph);
    var h1 := Rest1(h);
    match h.port[0]
    case Write(j, bytes) => OneChanged(h, DoWrite(h1, j, bytes, net.mem), j);
    case End(j) => EndHead(h, j); OneChanged(h, DoEnd(h1, j), j);
    case FileFinished(j) => OneChanged(h, DoFileDone(h1, j), j);
    case FileFailed(j) => OneChanged(h, DoFileDone(h1, j), j);
    case FindOutput(name) => OneOpened(h, name, net.mem);
    case SendNextFile => NoneChanged(h, h1);
    case Other => NoneChanged(h, h1);
  }

  lemma NoneChanged(h: H, r: H)
    requires r.ioArg == h.ioArg && r.serial == h.serial && r.transfers == h.transfers
    requires h.ioArg.Some? && h.ioArg.value < |h.transfers|
    ensures SameActive(h, r)
  {
  }

  lemma OneOpened(h: H, name: CString, mem: bool)
    requires h.port != [] && h.ioArg.Some? && h.ioArg.value < |h.transfers|
    ensures SameActive(h, DoFindOutput(Rest1(h), name, mem))
  {
    hide Min;
  }

  /** These change one transfer, which is not in flight. */
  lemma OneChanged(h: H, r: H, j: nat)
    requires h.port != [] && h.ioArg.Some? && h.ioArg.value < |h.transfers| && Sent(h.transfers[h.ioArg.value])
    requires j < |h.transfers| && !Sent(h.transfers[j])
    requires || (h.port[0].Write? && h.port[0].ftx == j && r == DoWrite(Rest1(h), j, h.port[0].bytes, true))
             || r == DoEnd(Rest1(h), j) || r == DoFileDone(Rest1(h), j)
    ensures SameActive(h, r)
  {
    hide HasInternal, FreshBuf, Unacked;
  }

  lemma GoingChunk(h: H, i: nat, net: Net)
    requires i < |h.transfers| && h.transfers[i].buffers != [] && SendError(net) == 0
    ensures var r := SendChunk(h, i, net); !r.trapped ==> r.serial.Pending? && r.serial.op.OpWrite?
  {
    hide Chunk, InBounds;
  }

  lemma ActivePass(h: H, ph: Phase, net: Net)
    requires PtrOk(h) && h.port != [] && Inv(h, ph) && KindOf(h.port[0]) == Active
    requires Inv(Handle(h, net), NextPhase(h, ph, net)) && NextPhase(h, ph, net) != Rest
    ensures ph != Rest && StageOf(h.serial) == Between && Handle(h, net).ioArg == h.ioArg && h.ioArg.Some?
    ensures h.ioArg.value < |h.transfers| == |Handle(h, net).transfers|
    ensures Handle(h, net).transfers[h.ioArg.value].acked == h.transfers[h.ioArg.value].acked
    ensures NextPhase(h, ph, net) == DataOut || NextPhase(h, ph, net) == Next
    ensures StageOf(Handle(h, net).serial) == if NextPhase(h, ph, net) == DataOut then Going else Between
  {
    hide Inv, Up, PtrOk, SendChunk, Kept, SendInternal;
    HeadPoints(h);
    TakeToken(h, ph);
    InvActive(h, ph);
    var h1, i, r := Rest1(h), h.ioArg.value, Handle(h, net);
    InvActive(r, NextPhase(h, ph, net));
    InvFine(r, NextPhase(h, ph, net));
    KeptActive(h1, h.port[0], net);
    KeptAcked(h1, r, i);
    match h.port[0]
    case SendNextBuffer(_) => GoingChunk(h1.(local := Some(i)), i, net);
    case ContinueBuffer(_) =>
      if h.transfers[i].buffers != [] {
        GoingChunk(SetFtx(h1.(local := Some(i)), i, Advanced(h.transfers[i])), i, net);
      }
    case BufferFinished(_) =>
  }

  lemma KeptAcked(h: H, r: H, i: nat)
    requires Kept(h, r, i) && i < |h.transfers|
    ensures |r.transfers| == |h.transfers| && r.transfers[i].acked == h.transfers[i].acked && r.ioArg == h.ioArg
  {
    assert SameFile(h.transfers[i], r.transfers[i]);
  }

  /** The answer to a write is awaited without a change to the files. */
  lemma WritePass(h: H, ph: Phase, net: Net)
    requires PtrOk(h) && h.port != [] && Inv(h, ph) && h.port[0] == SerialReply && h.ioType == WriteReturn && net.mem
    ensures h.serial.Replied? && h.serial.op.OpWrite? && h.ioArg.Some?
    ensures StageOf(h.serial) == Answered && StageOf(Handle(h, net).serial) == Answered
    ensures Handle(h, net).transfers == h.transfers && Handle(h, net).ioArg == h.ioArg
  {
    hide Up, PtrOk, Signals, QueueOk, XferOk, RestOk, Without;
    HeadPoints(h);
    TakeSerial(h, ph);
  }

  lemma FrontOfOverlay(before: seq<byte>, bytes: seq<byte>, e: seq<byte>)
    requires e <= bytes && |e| >= 4 && |before| >= 4
    ensures GetOpcode(Overlay(before, bytes)) == GetOpcode(e) && GetBlknum(Overlay(before, bytes)) == GetBlknum(e)
  {
    var r := Overlay(before, bytes);
    assert r[0] == bytes[0] == e[0] && r[1] == bytes[1] == e[1] && r[2] == bytes[2] == e[2] && r[3] == bytes[3] == e[3];
  }

  /** With a quiet line an acknowledgement found in the packet means that the server has accepted the
      payload in flight. */
  lemma AckMeansStored(ses: Session, t: Ftx, ph: Phase, before: seq<byte>, bytes: seq<byte>)
    requires |before| >= 4 && Expected(ses, t, ph) <= bytes && InStep(ses, t, ph)
    requires ph == DataOut && GetOpcode(Overlay(before, bytes)) == OP_ACK
    ensures ses.got == SentTo(t, ph)
  {
    hide AckBytes, ErrorBytes, GetOpcode, GetBlknum, Overlay, SentTo;
    if ses.got != SentTo(t, ph) {
      ErrorFields(ILLEGAL, []);
      assert ErrorBytes(ILLEGAL) + [] == ErrorBytes(ILLEGAL);
      ErrorLength(ILLEGAL);
      FrontOfOverlay(before, bytes, ErrorBytes(ILLEGAL));
    }
  }

  lemma ErrorLength(code: word)
    ensures |ErrorBytes(code)| >= 4
  {
  }

  lemma ReadPass(h: H, ph: Phase, net: Net)
    requires PtrOk(h) && h.port != [] && Inv(h, ph) && h.port[0] == SerialReply && h.ioType == ReadReturn
    requires Inv(Handle(h, net), NextPhase(h, ph, net)) && NextPhase(h, ph, net) != Rest
    ensures ph == WrqOut || ph == DataOut
    ensures h.serial.Replied? && h.serial.status == 0 && h.serial.op.OpRead? && h.serial.reply.Payload? && h.ioArg.Some?
    ensures h.ioArg.value < |h.transfers| == |Handle(h, net).transfers| && Handle(h, net).ioArg == h.ioArg
    ensures |h.tftppkt| >= 4 && GetOpcode(Overlay(h.tftppkt, h.serial.reply.bytes)) == OP_ACK
    ensures NextPhase(h, ph, net) == if ph == WrqOut then Next
                                     else AfterReply(h.transfers[h.ioArg.value],
                                                     Overlay(h.tftppkt, h.serial.reply.bytes))
    ensures NextPhase(h, ph, net) == Next || NextPhase(h, ph, net) == Cont || NextPhase(h, ph, net) == BufDone
    ensures Handle(h, net).transfers[h.ioArg.value].acked
         == if ph == WrqOut then h.transfers[h.ioArg.value].acked
            else h.transfers[h.ioArg.value].acked + [ChunkOf(h.transfers[h.ioArg.value])]
  {
    hide Inv, Up, PtrOk, Kept, Acknowledges, DoReadReturn, Overlay, GetOpcode, GetBlknum;
    HeadPoints(h);
    ArgPoints(h);
    TakeSerial(h, ph);
    InvActive(h, ph);
    ReplyOp(h, ph);
    var h1, i := Rest1(h), h.ioArg.value;
    PhaseState(h, ph);
    if ph == WrqOut {
      NotAcknowledged(h1, i, net.mem);
      KeptReadReturn(h1, i, net.mem);
      KeptAcked(h1, Handle(h, net), i);
    } else {
      WillAcknowledge(h1, i, net.mem);
      AckEffect(h1, i, net.mem);
    }
  }

  lemma ReplyOp(h: H, ph: Phase)
    requires Inv(h, ph) && h.serial != Idle
    ensures h.serial.op.OpWrite? <==> h.ioType == WriteReturn
    ensures h.ioType != NoIo
  {
  }

  lemma PhaseState(h: H, ph: Phase)
    requires Inv(h, ph) && (ph == WrqOut || ph == DataOut)
    ensures h.ioArg.Some? && h.ioArg.value < |h.transfers|
    ensures h.transfers[h.ioArg.value].state == if ph == WrqOut then WrqSent else DataSent
    ensures var t := h.transfers[h.ioArg.value]; ph == DataOut ==> t.buffers != [] && InBounds(t.buffers[0])
  {
  }

  lemma NotAcknowledged(h: H, i: nat, mem: bool)
    requires i < |h.transfers| && h.serial.Replied? && h.transfers[i].state == WrqSent && |h.tftppkt| >= 4
    ensures !Acknowledges(Opened(h, i, mem), i)
  {
    hide Kept, GetOpcode, GetBlknum, InBounds, Opened;
    KeptOpened(h, i, mem);
    KeptState(h, Opened(h, i, mem), i);
    if Acknowledges(Opened(h, i, mem), i) && (h.serial.status > 0 || !mem || h.serial.reply.Rejected?) {
      OpenedFailed(h, i, mem);
    } else if h.serial.status == 0 && mem && h.serial.reply.Payload? {
      OpenedGood(h, i);
    }
  }

  lemma KeptState(h: H, r: H, i: nat)
    requires Kept(h, r, i) && i < |h.transfers|
    ensures |r.transfers| == |h.transfers|
  {
  }

  lemma OpenedGood(h: H, i: nat)
    requires i < |h.transfers| && h.serial.Replied? && h.serial.status == 0 && h.serial.reply.Payload?
    ensures Opened(h, i, true).transfers == h.transfers
    ensures Opened(h, i, true).tftppkt == Overlay(h.tftppkt, h.serial.reply.bytes)
  {
    hide Without, Overlay;
  }

  lemma WillAcknowledge(h: H, i: nat, mem: bool)
    requires i < |h.transfers| && h.serial.Replied? && h.serial.status == 0 && mem && h.serial.reply.Payload?
    requires h.transfers[i].state == DataSent && h.transfers[i].buffers != [] && InBounds(h.transfers[i].buffers[0])
    requires |h.tftppkt| >= 4 && AfterReply(h.transfers[i], Overlay(h.tftppkt, h.serial.reply.bytes)) != Rest
    ensures Acknowledges(Opened(h, i, mem), i)
  {
    hide GetOpcode, GetBlknum, InBounds, Opened, Overlay;
    OpenedGood(h, i);
  }

  /** The line stays in order when a pass takes the transfer from one phase to the next. */
  lemma LineActive(ses: Option<Session>, line: seq<seq<byte>>, quiet: bool, t: Ftx, ph: Phase, t1: Ftx, next: Phase)
    requires LineOk(ses, line, quiet, t, ph, Between) && t1.acked == t.acked && (next == DataOut || next == Next)
    ensures LineOk(ses, line, quiet, t1, next, if next == DataOut then Going else Between)
  {
  }

  lemma LineRead(ses: Option<Session>, line: seq<seq<byte>>, quiet: bool, t: Ftx, ph: Phase, data: seq<byte>,
                 tftppkt: seq<byte>, t1: Ftx, next: Phase)
    requires LineOk(ses, line, quiet, t, ph, Read(0, Payload(data)))
    requires |tftppkt| >= 4 && GetOpcode(Overlay(tftppkt, data)) == OP_ACK
    requires (ph == WrqOut || ph == DataOut) && t1.acked == SentTo(t, ph)
    ensures LineOk(ses, line, quiet, t1, next, Between)
  {
    hide GetOpcode, Overlay, ChunkOf, AckBytes, ErrorBytes, Expected;
    if quiet && ph == DataOut {
      AckMeansStored(ses.value, t, ph, tftppkt, data);
    }
  }

  lemma NotOwner(sessions: seq<Session>, owners: seq<nat>, ts: seq<Ftx>, i: nat)
    requires Archive(sessions, owners, ts) && i < |ts| && Waiting(ts[i])
    ensures i !in owners
  {
    forall k | 0 <= k < |owners|
      ensures owners[k] != i
    {
      assert OwnerOk(sessions[k], owners[k], ts);
    }
  }

  lemma PickActive(s: Sys, net: Net)
    requires PtrOk(s.h) && s.h.port != [] && Inv(s.h, Rest) && Books(s) && Starts(s.h).Some?
    requires Inv(Handle(s.h, net), WrqOut)
    ensures var i := Starts(s.h).value;
            ActiveOk(s.(h := Handle(s.h, net), clean := if s.line == [] then s.clean + {i} else s.clean), WrqOut)
  {
    hide PtrOk, Inv, HasInternal, AllStored, Payloads, SessionOk;
    var h, i := s.h, Starts(s.h).value;
    assert h.transfers[i].state == Ready;
    NotOwner(s.sessions, s.owners, h.transfers, i);
    InvActive(Handle(h, net), WrqOut);
    PickGoing(h, net);
  }

  lemma PickGoing(h: H, net: Net)
    requires PtrOk(h) && h.port != [] && Starts(h).Some? && Handle(h, net).busy
    ensures Handle(h, net).ioArg == Starts(h) && StageOf(Handle(h, net).serial) == Going
    ensures SendError(net) == 0
  {
    hide PtrOk, HasInternal;
  }

  /** What a pass means for the active transfer, if the handler goes on with one. */
  lemma PassActive(s: Sys, ph: Phase, net: Net)
    requires PtrOk(s.h) && s.h.port != [] && Inv(s.h, ph) && ActiveOk(s, ph) && Books(s) && Orderly(s.h, Step(net))
    requires s.h.running && Handle(s.h, net).running && Inv(Handle(s.h, net), NextPhase(s.h, ph, net))
    ensures ActiveOk(s.(h := Handle(s.h, net),
                        clean := if Starts(s.h).Some? && s.line == [] then s.clean + {Starts(s.h).value} else s.clean),
                     NextPhase(s.h, ph, net))
  {
    hide Inv, PtrOk, Books, Handle, LineOk, OnlyLast, SessionFor;
    var h, next := s.h, NextPhase(s.h, ph, net);
    if next != Rest {
      if Starts(h).Some? {
        StartsRest(h, ph, net);
        PickActive(s, net);
      } else if KindOf(h.port[0]) == Active {
        ActivePass(h, ph, net);
        LineActive(SessionFor(s.sessions, s.owners, h.ioArg.value), s.line, h.ioArg.value in s.clean,
                   h.transfers[h.ioArg.value], ph, Handle(h, net).transfers[h.ioArg.value], next);
      } else if h.port[0] == SerialReply {
        SerialActive(s, ph, net);
      } else if h.port[0] != TimerReply {
        NotDie(h, net);
        QuietPhase(h, ph, net);
        OtherActive(h, ph, net);
      }
    }
  }

  lemma StartsRest(h: H, ph: Phase, net: Net)
    requires PtrOk(h) && h.port != [] && Inv(h, ph) && Starts(h).Some? && NextPhase(h, ph, net) != Rest
    ensures ph == Rest && NextPhase(h, ph, net) == WrqOut
  {
    hide XferOk, RestOk, Signals, QueueOk;
  }

  lemma NotDie(h: H, net: Net)
    requires PtrOk(h) && h.port != [] && Handle(h, net).running
    ensures h.port[0] != Die
  {
    hide DoFindOutput, DoWrite, DoEnd, DoSendNextFile, DoSendNextBuffer, DoContinueBuffer, DoBufferFinished,
         DoFileDone, DoSerialReply, DoTimerExpired;
  }

  lemma QuietPhase(h: H, ph: Phase, net: Net)
    requires PtrOk(h) && h.port != [] && Starts(h) == None && Inv(h, ph)
    requires KindOf(h.port[0]) == Client || KindOf(h.port[0]) == Wake
    ensures NextPhase(h, ph, net) == ph
  {
    hide XferOk, RestOk, Signals, QueueOk;
  }

  lemma SerialActive(s: Sys, ph: Phase, net: Net)
    requires PtrOk(s.h) && s.h.port != [] && Inv(s.h, ph) && ActiveOk(s, ph) && s.h.port[0] == SerialReply
    requires Inv(Handle(s.h, net), NextPhase(s.h, ph, net)) && NextPhase(s.h, ph, net) != Rest
    ensures ActiveOk(s.(h := Handle(s.h, net)), NextPhase(s.h, ph, net))
  {
    hide Inv, Up, PtrOk, Handle, OnlyLast, SessionFor, GetOpcode, GetBlknum, Overlay, AckBytes, ErrorBytes, AfterReply;
    var h := s.h;
    TakeSerial(h, ph);
    ReplyOp(h, ph);
    var i := h.ioArg.value;
    if h.ioType == WriteReturn {
      WritePass(h, ph, net);
    } else {
      ReadPass(h, ph, net);
      InvActive(Handle(h, net), NextPhase(h, ph, net));
      LineRead(SessionFor(s.sessions, s.owners, i), s.line, i in s.clean, h.transfers[i], ph, h.serial.reply.bytes,
               h.tftppkt, Handle(h, net).transfers[i], NextPhase(h, ph, net));
    }
  }

  // ---------------------------------------------------------------------------------------
  // A pass keeps the books
  // ---------------------------------------------------------------------------------------

  lemma FinishArchive(sessions: seq<Session>, owners: seq<nat>, ts: seq<Ftx>, i: nat)
    requires Archive(sessions, owners, ts) && i < |ts| && Sent(ts[i])
    ensures Archive(sessions, owners, FinishedAt(ts, i))
  {
    hide Payloads, SessionOk;
    forall k | 0 <= k < |sessions|
      ensures OwnerOk(sessions[k], owners[k], FinishedAt(ts, i))
    {
      assert OwnerOk(sessions[k], owners[k], ts);
    }
  }

  lemma FinishStored(sessions: seq<Session>, owners: seq<nat>, clean: set<nat>, ts: seq<Ftx>, i: nat)
    requires AllStored(sessions, owners, clean, ts) && i < |ts| && |owners| == |sessions|
    requires owners != [] && owners[|owners| - 1] == i && StoredAs(sessions[|owners| - 1], ts[i].writes, i in clean)
    ensures AllStored(sessions, owners, clean, FinishedAt(ts, i))
  {
    hide StoredAs;
    forall j | 0 <= j < |ts| && FinishedAt(ts, i)[j].state == Finished
      ensures Stored(sessions, owners, j, FinishedAt(ts, i)[j], j in clean)
    {
      if j == i {
        assert StoredAs(sessions[|owners| - 1], ts[i].writes, i in clean);
      } else {
        assert Stored(sessions, owners, j, ts[j], j in clean);
      }
    }
  }

  /** When the last buffer turns out to have been sent, the server has been sent all of the file. */
  lemma FinishBooks(s: Sys, ph: Phase, net: Net)
    requires PtrOk(s.h) && s.h.port != [] && Inv(s.h, ph) && ActiveOk(s, ph) && Books(s) && Finishing(s.h)
    ensures Books(s.(h := Handle(s.h, net)))
  {
    hide Inv, Up, PtrOk, Handle, Archive, AllStored, RestOk;
    FinishEffect(s.h, net);
    TakeToken(s.h, ph);
    InvActive(s.h, ph);
    var h, i := s.h, s.h.port[0].ftx;
    assert ph == Next && i == h.ioArg.value;
    assert StageOf(h.serial) == Between;
    FinishAcked(h.transfers[i]);
    FinishArchive(s.sessions, s.owners, h.transfers, i);
    FinishStored(s.sessions, s.owners, s.clean, h.transfers, i);
  }

  lemma FinishAcked(t: Ftx)
    requires XferOk(t, Next) && t.buffers == []
    ensures t.acked == Payloads(t.writes)
  {
    FinishOk(t);
  }

  lemma StartsState(h: H, net: Net)
    requires PtrOk(h) && h.port != [] && Starts(h).Some?
    ensures Starts(h).value < |Handle(h, net).transfers|
    ensures var t := Handle(h, net).transfers[Starts(h).value]; Sent(t) || t.state == Error
  {
    hide PtrOk, Send;
    var i := Starts(h).value;
    SendState(Picked(Rest1(h), i), i, Wrq(h.transfers[i].name), WrqSent, net);
  }

  lemma PassBooks(s: Sys, ph: Phase, net: Net)
    requires PtrOk(s.h) && s.h.port != [] && Inv(s.h, ph) && ActiveOk(s, ph) && Books(s) && Orderly(s.h, Step(net))
    ensures Books(s.(h := Handle(s.h, net),
                     clean := if Starts(s.h).Some? && s.line == [] then s.clean + {Starts(s.h).value} else s.clean))
  {
    hide Inv, PtrOk, Handle, Archive, AllStored, ActiveOk;
    var a, b := s.h.transfers, Handle(s.h, net).transfers;
    if Finishing(s.h) {
      FinishBooks(s, ph, net);
    } else {
      HandleLasting(s.h, ph, net);
      if Starts(s.h).Some? {
        StartsState(s.h, net);
      }
      var more := if Starts(s.h).Some? && s.line == [] then s.clean + {Starts(s.h).value} else s.clean;
      LastingArchive(s.sessions, s.owners, a, b);
      LastingStored(s.sessions, s.owners, s.clean, more, a, b);
      LastingBegun(s.clean, a, b);
    }
  }

  lemma LastingBegun(clean: set<nat>, a: seq<Ftx>, b: seq<Ftx>)
    requires Begun(clean, a) && Lasting(a, b)
    ensures Begun(clean, b)
  {
  }

  // ---------------------------------------------------------------------------------------
  // The line and the server
  // ---------------------------------------------------------------------------------------

  lemma OnLineSendable(t: Ftx, ph: Phase)
    ensures Sendable(OnLine(t, ph))
  {
  }

  lemma GoingPacket(h: H, ph: Phase)
    requires Inv(h, ph) && h.serial.Pending? && h.serial.op.OpWrite?
    ensures (ph == WrqOut || ph == DataOut) && h.ioArg.Some? && h.ioArg.value < |h.transfers|
    ensures h.serial.op.data == OnLine(h.transfers[h.ioArg.value], ph)
    ensures XferOk(h.transfers[h.ioArg.value], ph)
  {
  }

  /** The frame of the active transfer's packet arrives as that packet. */
  lemma ArrivesIntact(h: H, ph: Phase)
    requires Inv(h, ph) && h.serial.Pending? && h.serial.op.OpWrite?
    ensures h.ioArg.Some? && h.ioArg.value < |h.transfers|
    ensures Arrived(h) == Some(OnLine(h.transfers[h.ioArg.value], ph))
  {
    hide Deliver, FrameOf, TftpBytes, OnLine, XferOk, Inv, Sendable;
    GoingPacket(h, ph);
    OnLineSendable(h.transfers[h.ioArg.value], ph);
    Delivered(h.serial.op.data);
  }

  /** The payload in flight is the next one of the file. */
  lemma NextPayload(t: Ftx)
    requires XferOk(t, DataOut)
    ensures t.buffers != [] && InBounds(t.buffers[0]) && ChunkOf(t) == Chunk(t.buffers[0])
    ensures t.acked + [ChunkOf(t)] <= Payloads(t.writes)
    ensures OnLine(t, DataOut) == Data(Wire(|t.acked| + 1), ChunkOf(t)) && t.blknum == |t.acked| + 1
  {
    hide Payloads, RestOf, Chunk;
    InFlight(t.buffers[0]);
  }

  lemma ServeRequest(s: Sys, ph: Phase, name: seq<byte>)
    requires ActiveOk(s, ph) && ph == WrqOut && StageOf(s.h.serial) == Going && Books(s) && s.h.ioArg.Some?
    requires s.h.ioArg.value < |s.h.transfers| && XferOk(s.h.transfers[s.h.ioArg.value], ph)
    requires name == s.h.transfers[s.h.ioArg.value].name
    ensures var i := s.h.ioArg.value;
            var sessions, owners := s.sessions + [Session(name, [], false, [])], s.owners + [i];
            && Archive(sessions, owners, s.h.transfers) && AllStored(sessions, owners, s.clean, s.h.transfers)
            && OnlyLast(owners, i)
            && LineOk(SessionFor(sessions, owners, i), s.line + [AckBytes(0)], i in s.clean, s.h.transfers[i], ph,
                      Answered)
  {
    hide Payloads, AckBytes, ErrorBytes;
    var i, ts := s.h.ioArg.value, s.h.transfers;
    var sessions, owners := s.sessions + [Session(name, [], false, [])], s.owners + [i];
    XferSent(ts[i], ph);
    NewSession(s.sessions, s.owners, ts, i, name);
    MoreStored(s.sessions, s.owners, s.clean, ts, Session(name, [], false, []), i);
  }

  lemma NewSession(sessions: seq<Session>, owners: seq<nat>, ts: seq<Ftx>, i: nat, name: seq<byte>)
    requires Archive(sessions, owners, ts) && i < |ts| && Sent(ts[i]) && name == ts[i].name
    requires OnlyLast(owners, i) && SessionFor(sessions, owners, i) == None
    ensures Archive(sessions + [Session(name, [], false, [])], owners + [i], ts)
  {
    hide Payloads;
    assert OwnerOk(Session(name, [], false, []), i, ts);
    forall k | 0 <= k < |sessions| + 1
      ensures OwnerOk((sessions + [Session(name, [], false, [])])[k], (owners + [i])[k], ts)
    {
      assert k < |sessions| ==> OwnerOk(sessions[k], owners[k], ts);
    }
  }

  lemma MoreStored(sessions: seq<Session>, owners: seq<nat>, clean: set<nat>, ts: seq<Ftx>, more: Session, i: nat)
    requires AllStored(sessions, owners, clean, ts) && |owners| == |sessions|
    ensures AllStored(sessions + [more], owners + [i], clean, ts)
  {
    hide StoredAs;
    forall j | 0 <= j < |ts| && ts[j].state == Finished
      ensures Stored(sessions + [more], owners + [i], j, ts[j], j in clean)
    {
      assert Stored(sessions, owners, j, ts[j], j in clean);
      var k :| 0 <= k < |owners| && k < |sessions| && owners[k] == j && StoredAs(sessions[k], ts[j].writes, j in clean);
      assert (owners + [i])[k] == j && StoredAs((sessions + [more])[k], ts[j].writes, j in clean);
    }
  }

  /** The last session after the DATA packet in flight has arrived. */
  lemma StoreFollows(ses: Session, t: Ftx)
    requires XferOk(t, DataOut) && Follows(ses, t.acked) && SessionOk(ses)
    ensures var s1 := Store(ses, Wire(|t.acked| + 1), ChunkOf(t));
            && Follows(s1, SentTo(t, DataOut)) && SessionOk(s1) && s1.name == ses.name
            && (ses.got == t.acked ==>
                  && InStep(s1, t, DataOut)
                  && Answer(ses, Wire(|t.acked| + 1), ChunkOf(t)) == Expected(s1, t, DataOut))
  {
    hide Payloads, ChunkOf, AckBytes, ErrorBytes, Wire, Unacked, Numbered;
    ChunkSmall(t);
    StoreOk(ses, Wire(|t.acked| + 1), ChunkOf(t));
    StoreNextOrDone(ses, t);
  }

  lemma ChunkSmall(t: Ftx)
    ensures |ChunkOf(t)| <= TFTP_MAX_DATA_SIZE
  {
  }

  lemma StoreNextOrDone(ses: Session, t: Ftx)
    requires Follows(ses, t.acked)
    ensures var s1 := Store(ses, Wire(|t.acked| + 1), ChunkOf(t));
            && s1.got == (if ses.done then ses.got else ses.got + [ChunkOf(t)]) && s1.name == ses.name
            && s1.heard == Numbered(t.acked + [ChunkOf(t)]) && (ses.done ==> s1.done)
            && (ses.got == t.acked ==>
                  && Answer(ses, Wire(|t.acked| + 1), ChunkOf(t))
                  == if ses.done then ErrorBytes(ILLEGAL) else AckBytes(Wire(|t.acked| + 1)))
  {
    hide ChunkOf, AckBytes, ErrorBytes, Wire, Numbered;
    ChunkSmall(t);
    NumberedAppend(t.acked, ChunkOf(t));
    if ses.done {
      StoreDone(ses, Wire(|t.acked| + 1), ChunkOf(t));
    }
    if ses.got == t.acked {
      StoreNext(ses, ChunkOf(t));
    }
  }

  lemma UpdateArchive(sessions: seq<Session>, owners: seq<nat>, ts: seq<Ftx>, s1: Session)
    requires Archive(sessions, owners, ts) && sessions != [] && OwnerOk(s1, owners[|owners| - 1], ts)
    ensures Archive(sessions[|sessions| - 1 := s1], owners, ts)
  {
    hide OwnerOk;
  }

  lemma UpdateStored(sessions: seq<Session>, owners: seq<nat>, clean: set<nat>, ts: seq<Ftx>, s1: Session, i: nat)
    requires AllStored(sessions, owners, clean, ts) && sessions != [] && |owners| == |sessions|
    requires owners[|owners| - 1] == i && i < |ts| && ts[i].state != Finished
    ensures AllStored(sessions[|sessions| - 1 := s1], owners, clean, ts)
  {
    hide StoredAs;
    var more := sessions[|sessions| - 1 := s1];
    forall j | 0 <= j < |ts| && ts[j].state == Finished
      ensures Stored(more, owners, j, ts[j], j in clean)
    {
      assert Stored(sessions, owners, j, ts[j], j in clean);
      var k :| 0 <= k < |owners| && k < |sessions| && owners[k] == j && StoredAs(sessions[k], ts[j].writes, j in clean);
      assert owners[k] == j && StoredAs(more[k], ts[j].writes, j in clean);
    }
  }

  lemma ServeData(s: Sys, ph: Phase)
    requires ActiveOk(s, ph) && ph == DataOut && StageOf(s.h.serial) == Going && Books(s) && s.h.ioArg.Some?
    requires s.h.ioArg.value < |s.h.transfers| && XferOk(s.h.transfers[s.h.ioArg.value], ph)
    ensures var i, t := s.h.ioArg.value, s.h.transfers[s.h.ioArg.value];
            var p := Data(Wire(|t.acked| + 1), ChunkOf(t));
            var sessions := Serve(s.sessions, p);
            && Archive(sessions, s.owners, s.h.transfers) && AllStored(sessions, s.owners, s.clean, s.h.transfers)
            && LineOk(SessionFor(sessions, s.owners, i), s.line + [Reply(s.sessions, p)], i in s.clean, t, ph, Answered)
  {
    hide Payloads, ChunkOf, AckBytes, ErrorBytes, Wire, SessionOk, Store, Answer, Expected, Unacked;
    var i, t := s.h.ioArg.value, s.h.transfers[s.h.ioArg.value];
    var last := |s.sessions| - 1;
    var ses := s.sessions[last];
    var s1 := Store(ses, Wire(|t.acked| + 1), ChunkOf(t));
    assert OwnerOk(ses, s.owners[last], s.h.transfers);
    StoreFollows(ses, t);
    NextPayload(t);
    assert OwnerOk(s1, i, s.h.transfers);
    UpdateArchive(s.sessions, s.owners, s.h.transfers, s1);
    UpdateStored(s.sessions, s.owners, s.clean, s.h.transfers, s1, i);
  }

  lemma WriteEndsStep(s: Sys, ph: Phase)
    requires SysInv(s, ph) && Allowed(s, WriteEnds)
    ensures Books(Next1(s, WriteEnds)) && ActiveOk(Next1(s, WriteEnds), ph)
  {
    hide Inv, PtrOk, Archive, AllStored, LineOk, XferOk, Deliver, FrameOf, TftpBytes, Serve, Reply, OnLine, SessionFor,
         Begun, Orderly, OnlyLast;
    var h := s.h;
    GoingPacket(h, ph);
    ArrivesIntact(h, ph);
    var i := h.ioArg.value;
    OnLineKind(h.transfers[i], ph);
    if ph == WrqOut {
      ServeRequest(s, ph, h.transfers[i].name);
      ServesRequest(s.sessions, h.transfers[i].name);
    } else {
      NextPayload(h.transfers[i]);
      ServeData(s, ph);
      ServesData(s.sessions, OnLine(h.transfers[i], ph));
    }
  }

  lemma OnLineKind(t: Ftx, ph: Phase)
    ensures ph == WrqOut ==> OnLine(t, ph) == Wrq(t.name)
  {
  }

  lemma ServesRequest(sessions: seq<Session>, name: seq<byte>)
    ensures Serve(sessions, Wrq(name)) == sessions + [Session(name, [], false, [])]
    ensures Reply(sessions, Wrq(name)) == AckBytes(0)
  {
  }

  lemma ServesData(sessions: seq<Session>, p: Packet)
    ensures p.Data? ==> |Serve(sessions, p)| == |sessions|
  {
  }

  lemma ReadEndsStep(s: Sys, ph: Phase, ev: Event)
    requires SysInv(s, ph) && Allowed(s, ev) && ev.ReadEnds?
    ensures Books(Next1(s, ev)) && ActiveOk(Next1(s, ev), ph)
  {
    hide Inv, PtrOk, Archive, AllStored, SessionFor, Begun, Orderly, OnlyLast, IsImage, Extract, Image,
         ImageSize, Expected,
         InStep, Follows;
    ReplyExtracted(Image(s, ev), ImageSize(s, ev), s.line[0], ev.headers, ev.tail);
    ReadInvSerial(s.h, ph);
  }

  lemma ReadInvSerial(h: H, ph: Phase)
    requires Inv(h, ph) && h.serial == Pending(OpRead)
    ensures ph != Rest && StageOf(h.serial) == Answered
  {
  }

  lemma OtherStep(s: Sys, ph: Phase, ev: Event)
    requires SysInv(s, ph) && Allowed(s, ev) && (ev.ClientMsg? || ev.TimerEnds? || ev.ReadFails?)
    ensures Books(Next1(s, ev)) && ActiveOk(Next1(s, ev), ph)
  {
    hide Inv, PtrOk, Archive, AllStored, SessionFor, Begun, Orderly, OnlyLast, Expected, InStep, Follows;
    if ev.ReadFails? {
      ReadInvSerial(s.h, ph);
    }
  }

  function PhaseNext(s: Sys, ph: Phase, ev: Event): Phase
    requires Allowed(s, ev)
  {
    PhaseAfter(s.h, ph, MoveOf(s, ev))
  }

  /** Every event keeps the books and keeps the active transfer in step with the line. */
  lemma SysStep(s: Sys, ph: Phase, ev: Event)
    requires SysInv(s, ph) && Allowed(s, ev)
    ensures SysInv(Next1(s, ev), PhaseNext(s, ph, ev))
  {
    hide Inv, PtrOk, Books, ActiveOk, Handle, Orderly, Readable1, Arrived, NextPhase;
    ApplyInv(s.h, ph, MoveOf(s, ev));
    match ev
    case Pass(net) => PassStep(s, ph, net);
    case WriteEnds => WriteEndsStep(s, ph);
    case ReadEnds(_, _) => ReadEndsStep(s, ph, ev);
    case _ => OtherStep(s, ph, ev);
  }

  lemma PassStep(s: Sys, ph: Phase, net: Net)
    requires SysInv(s, ph) && Allowed(s, Pass(net)) && Fine(Handle(s.h, net), NextPhase(s.h, ph, net))
    ensures SysInv(Next1(s, Pass(net)), NextPhase(s.h, ph, net))
  {
    hide Inv, PtrOk, Books, ActiveOk, Handle, Orderly, NextPhase, FitsTold;
    PassBooks(s, ph, net);
    if Handle(s.h, net).running {
      PassActive(s, ph, net);
    }
  }

  // ---------------------------------------------------------------------------------------
  // Runs
  // ---------------------------------------------------------------------------------------

  predicate InitialSys(s: Sys) {
    Initial(s.h) && s.sessions == [] && s.line == [] && s.owners == [] && s.clean == {}
  }

  ghost predicate AllowedRun(s: Sys, events: seq<Event>)
    decreases |events|
  {
    events == [] || (Allowed(s, events[0]) && AllowedRun(Next1(s, events[0]), events[1..]))
  }

  ghost function AfterRun(s: Sys, events: seq<Event>): Sys
    requires AllowedRun(s, events)
    decreases |events|
  {
    if events == [] then s else AfterRun(Next1(s, events[0]), events[1..])
  }

  lemma {:induction false} RunsJoin(s: Sys, events: seq<Event>, more: seq<Event>)
    requires AllowedRun(s, events) && AllowedRun(AfterRun(s, events), more)
    ensures AllowedRun(s, events + more) && AfterRun(s, events + more) == AfterRun(AfterRun(s, events), more)
    decreases |events|
  {
    hide Allowed, Next1;
    if events == [] {
      assert events + more == more;
    } else {
      assert (events + more)[1..] == events[1..] + more;
      RunsJoin(Next1(s, events[0]), events[1..], more);
    }
  }

  function MoveAt(s: Sys, ev: Event): Move
    requires Allowed(s, ev)
  {
    MoveOf(s, ev)
  }

  /** The moves of the handler's world in a run of the system. */
  ghost function Moves(s: Sys, events: seq<Event>): seq<Move>
    requires AllowedRun(s, events)
    decreases |events|
  {
    if events == [] then [] else [MoveAt(s, events[0])] + Moves(Next1(s, events[0]), events[1..])
  }

  lemma NextHandler(s: Sys, ev: Event)
    requires Allowed(s, ev)
    ensures PtrOk(s.h) && Possible(s.h, MoveAt(s, ev)) && Orderly(s.h, MoveAt(s, ev))
    ensures Next1(s, ev).h == Apply(s.h, MoveAt(s, ev))
  {
    hide PtrOk, Apply, Arrived, Serve, Reply, Extract, Image, ImageSize, Orderly, FitsTold;
  }

  /** They are an orderly run of the handler. */
  lemma {:induction false} MovesRun(s: Sys, events: seq<Event>)
    requires AllowedRun(s, events)
    ensures PtrOk(s.h) ==> PossibleRun(s.h, Moves(s, events)) && Throughout(s.h, Moves(s, events), Orderly)
    ensures PtrOk(s.h) ==> After(s.h, Moves(s, events)) == AfterRun(s, events).h
    decreases |events|
  {
    hide PtrOk, Apply, Next1, Allowed, Possible, Orderly, MoveAt;
    if events != [] {
      NextHandler(s, events[0]);
      MovesRun(Next1(s, events[0]), events[1..]);
      var moves := Moves(s, events);
      assert moves[0] == MoveAt(s, events[0]) && moves[1..] == Moves(Next1(s, events[0]), events[1..]);
    }
  }

  lemma StartPoints(s: Sys)
    requires InitialSys(s)
    ensures PtrOk(s.h)
  {
  }

  /** What the handler has handled in a run of the system. */
  ghost function Told(s: Sys, events: seq<Event>): seq<Dealt>
    requires InitialSys(s) && AllowedRun(s, events)
  {
    StartPoints(s);
    MovesRun(s, events);
    Log(s.h, Moves(s, events))
  }

  /** The buffers clients have written to file i. */
  ghost function Given(s: Sys, events: seq<Event>, i: nat): seq<seq<byte>>
    requires InitialSys(s) && AllowedRun(s, events)
  {
    BytesFor(Told(s, events), i)
  }

  /** The records of the handler are what clients have handed in. */
  lemma GivenIs(s: Sys, events: seq<Event>)
    requires InitialSys(s) && AllowedRun(s, events)
    ensures var ts, log := AfterRun(s, events).h.transfers, Told(s, events);
            && |ts| == |PathsIn(log)|
            && forall i :: 0 <= i < |ts| ==>
                 ts[i].name == NameOf(PathsIn(log)[i]) && ts[i].writes == Given(s, events, i)
  {
    hide AfterRun, After, Log, Moves, BytesFor, PathsIn, NameOf;
    StartPoints(s);
    MovesRun(s, events);
    HandedIn(s.h, Moves(s, events));
  }

  lemma InitSysInv(s: Sys)
    requires InitialSys(s)
    ensures SysInv(s, Rest)
  {
    InitInv(s.h);
    InvFine(s.h, Rest);
  }

  lemma {:induction false} SysRun(s: Sys, ph: Phase, events: seq<Event>) returns (last: Phase)
    requires SysInv(s, ph) && AllowedRun(s, events)
    ensures SysInv(AfterRun(s, events), last)
    decreases |events|
  {
    hide SysInv, Allowed, Next1, PhaseNext;
    last := ph;
    if events != [] {
      SysStep(s, ph, events[0]);
      last := SysRun(Next1(s, events[0]), PhaseNext(s, ph, events[0]), events[1..]);
    }
  }

  // ---------------------------------------------------------------------------------------
  // End-to-end safety
  // ---------------------------------------------------------------------------------------

  /** In every reachable state, whatever timeouts, read errors and stale replies there were, each
      session on the server is for the name its file was opened by, cut at 255 characters, and holds a prefix
      of the bytes clients have written to it. */
  lemma PrefixDelivery(s: Sys, events: seq<Event>, k: nat)
    requires InitialSys(s) && AllowedRun(s, events) && k < |AfterRun(s, events).sessions|
    ensures var r := AfterRun(s, events);
            && |r.owners| == |r.sessions| && r.owners[k] < |PathsIn(Told(s, events))| == |r.h.transfers|
            && r.sessions[k].name == NameOf(PathsIn(Told(s, events))[r.owners[k]])
            && Flatten(r.sessions[k].got) <= Flatten(Given(s, events, r.owners[k]))
  {
    hide AfterRun, AllStored, Inv, ActiveOk, Payloads, SessionOk, Flatten, Told, Given, NameOf, PathsIn;
    GivenIs(s, events);
    InitSysInv(s);
    var last := SysRun(s, Rest, events);
    var r := AfterRun(s, events);
    assert OwnerOk(r.sessions[k], r.owners[k], r.h.transfers);
    var t := r.h.transfers[r.owners[k]];
    FlattenPrefix(r.sessions[k].got, Payloads(t.writes));
    FlattenPayloads(t.writes);
  }

  /** No payload but the last is short: the server cannot take another one for the last. */
  predicate NoEarlyEnd(writes: seq<seq<byte>>) {
    forall k :: 0 <= k < |Payloads(writes)| - 1 ==> |Payloads(writes)[k]| == BLOCK_SIZE
  }

  /** In every reachable state, the packets a finished file was sent in are those of its payloads, and the
      server holds it up to its first short payload. It holds the whole file exactly if no payload but the
      last is short; a file that was picked while no stale reply was on the line never finishes otherwise. */
  lemma FinishedIsStored(s: Sys, events: seq<Event>, i: nat) returns (k: nat)
    requires InitialSys(s) && AllowedRun(s, events) && i < |AfterRun(s, events).h.transfers|
    requires AfterRun(s, events).h.transfers[i].state == Finished
    ensures var r := AfterRun(s, events);
            && k < |r.sessions| && k < |r.owners| && r.owners[k] == i
            && var ses, writes := r.sessions[k], Given(s, events, i);
               && ses.heard == Numbered(Payloads(writes))
               && ses.got <= Payloads(writes) && (ses.done || ses.got == Payloads(writes))
               && (ses.got == Payloads(writes) <==> NoEarlyEnd(writes))
               && (NoEarlyEnd(writes) ==> Flatten(ses.got) == Flatten(writes))
               && (i in r.clean ==> NoEarlyEnd(writes))
  {
    hide AfterRun, Archive, Inv, ActiveOk, Payloads, Flatten, NoEarlyEnd, SessionOk, Given, Told, PathsIn, NameOf;
    GivenIs(s, events);
    InitSysInv(s);
    var last := SysRun(s, Rest, events);
    var r := AfterRun(s, events);
    var t := r.h.transfers[i];
    assert Stored(r.sessions, r.owners, i, t, i in r.clean);
    k :| 0 <= k < |r.owners| && k < |r.sessions| && r.owners[k] == i && StoredAs(r.sessions[k], t.writes, i in r.clean);
    ArchiveOk(r.sessions, r.owners, r.h.transfers, k);
    StoredWhole(r.sessions[k], t.writes);
    FlattenPayloads(t.writes);
  }

  lemma ArchiveOk(sessions: seq<Session>, owners: seq<nat>, ts: seq<Ftx>, k: nat)
    requires Archive(sessions, owners, ts) && k < |sessions|
    ensures SessionOk(sessions[k])
  {
    hide SessionOk, Payloads;
    assert OwnerOk(sessions[k], owners[k], ts);
  }

  lemma StoredWhole(ses: Session, writes: seq<seq<byte>>)
    requires Follows(ses, Payloads(writes)) && SessionOk(ses)
    ensures ses.got == Payloads(writes) <==> NoEarlyEnd(writes)
  {
    hide Payloads;
    var p, n := Payloads(writes), |ses.got|;
    assert n > 0 ==> ses.got[n - 1] == p[n - 1];
  }

  /** No block before the last two that were sent is short. */
  predicate FullBefore(writes: seq<seq<byte>>, blknum: nat) {
    forall k :: 0 <= k < |Payloads(writes)| && k < blknum - 2 ==> |Payloads(writes)[k]| == BLOCK_SIZE
  }

  /** The number of blocks the server has accepted is the block number of the transfer or one less. */
  predicate LastBlock(s: Session, blknum: nat) {
    |s.got| == blknum || |s.got| == blknum - 1
  }

  /** The server has accepted n of the payloads exactly if the first n - 1 are full. */
  lemma FollowsExact(ses: Session, d: seq<seq<byte>>, writes: seq<seq<byte>>, n: nat)
    requires Follows(ses, d) && SessionOk(ses) && d <= Payloads(writes) && n <= |d|
    ensures |ses.got| >= n <==> FullBefore(writes, n + 1)
  {
    hide Payloads, Numbered;
    var p, m := Payloads(writes), |ses.got|;
    assert forall k :: 0 <= k < |d| ==> p[k] == d[k];
    assert m > 0 ==> ses.got[m - 1] == p[m - 1];
    assert m >= n ==> forall k :: 0 <= k < n - 1 ==> p[k] == ses.got[k];
  }

  lemma LastBlockExact(ses: Session, line: seq<seq<byte>>, quiet: bool, t: Ftx, ph: Phase, stage: Stage)
    requires LineOk(Some(ses), line, quiet, t, ph, stage) && SessionOk(ses) && XferOk(t, ph)
    requires t.acked <= Payloads(t.writes) && SentTo(t, ph) <= Payloads(t.writes)
    requires stage == Between <==> ph == Next || ph == Cont || ph == BufDone
    ensures LastBlock(ses, t.blknum) <==> FullBefore(t.writes, t.blknum)
    ensures |ses.got| <= t.blknum && (quiet ==> LastBlock(ses, t.blknum))
  {
    hide Payloads, Numbered, ChunkOf, FullBefore, Unacked, AllFresh, Expected, SessionOk, Conserved;
    if t.blknum > 0 {
      FollowsExact(ses, if stage.Going? || stage.Between? then t.acked else SentTo(t, ph), t.writes, t.blknum - 1);
    } else {
      NoneBefore(t.writes);
    }
  }

  lemma NoneBefore(writes: seq<seq<byte>>)
    ensures FullBefore(writes, 0)
  {
  }

  lemma BusyPhase(h: H, ph: Phase)
    requires Inv(h, ph) && h.busy
    ensures ph != Rest
  {
    hide Signals, QueueOk, OthersOk;
  }

  lemma InvSerial(h: H, ph: Phase)
    requires Inv(h, ph) && ph != Rest
    ensures StageOf(h.serial) == Between <==> ph == Next || ph == Cont || ph == BufDone
  {
    hide Signals, QueueOk, XferOk, OthersOk;
  }

  lemma LastOwner(owners: seq<nat>, i: nat)
    requires OnlyLast(owners, i) && i in owners
    ensures owners != [] && owners[|owners| - 1] == i
  {
  }

  lemma SentPrefix(t: Ftx, ph: Phase)
    requires XferOk(t, ph)
    ensures t.acked <= Payloads(t.writes) && SentTo(t, ph) <= Payloads(t.writes)
    ensures t.blknum <= |Payloads(t.writes)|
  {
    hide Payloads, ChunkOf, Unacked;
    XferConserved(t, ph);
    if ph == DataOut {
      NextPayload(t);
    }
  }

  /** In every reachable state, once the write request of the active transfer has reached the server, the
      last block the server has accepted is the block number of the transfer or one less, exactly if no
      block before the last two sent was short. For a transfer that was picked with a quiet line it always
      is. */
  lemma BlocksInStep(s: Sys, events: seq<Event>)
    requires InitialSys(s) && AllowedRun(s, events)
    requires var r := AfterRun(s, events);
             r.h.running && r.h.busy && r.h.ioArg.Some? && r.h.ioArg.value in r.owners
    ensures var r := AfterRun(s, events);
            && r.sessions != [] && r.h.ioArg.value < |r.h.transfers|
            && var session, t := r.sessions[|r.sessions| - 1], r.h.transfers[r.h.ioArg.value];
               var writes := Given(s, events, r.h.ioArg.value);
               && (LastBlock(session, t.blknum) <==> FullBefore(writes, t.blknum))
               && |session.got| <= t.blknum <= |Payloads(writes)|
               && (r.h.ioArg.value in r.clean ==> LastBlock(session, t.blknum))
  {
    hide AfterRun, AllStored, Payloads, Unacked, AllFresh, FullBefore, LastBlock, SessionOk, LineOk, XferOk;
    hide Given, Told, PathsIn, NameOf;
    GivenIs(s, events);
    InitSysInv(s);
    var last := SysRun(s, Rest, events);
    BlocksAt(AfterRun(s, events), last);
  }

  lemma BlocksAt(s: Sys, ph: Phase)
    requires SysInv(s, ph) && s.h.running && s.h.busy && s.h.ioArg.Some? && s.h.ioArg.value in s.owners
    ensures s.sessions != [] && s.h.ioArg.value < |s.h.transfers|
    ensures var session, t := s.sessions[|s.sessions| - 1], s.h.transfers[s.h.ioArg.value];
            && (LastBlock(session, t.blknum) <==> FullBefore(t.writes, t.blknum))
            && |session.got| <= t.blknum <= |Payloads(t.writes)|
            && (s.h.ioArg.value in s.clean ==> LastBlock(session, t.blknum))
  {
    hide AllStored, Payloads, Unacked, AllFresh, FullBefore, LastBlock, SessionOk, LineOk, XferOk;
    BusyPhase(s.h, ph);
    InvSerial(s.h, ph);
    var i := s.h.ioArg.value;
    InvActive(s.h, ph);
    LastOwner(s.owners, i);
    ArchiveOk(s.sessions, s.owners, s.h.transfers, |s.sessions| - 1);
    SentPrefix(s.h.transfers[i], ph);
    var ses := s.sessions[|s.sessions| - 1];
    LastBlockExact(ses, s.line, i in s.clean, s.h.transfers[i], ph, StageOf(s.h.serial));
  }
}

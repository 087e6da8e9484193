/** What handling one message does to the state of the handler: the specification of the main loop
    of handler.c and of the functions of dos.c it calls. */
module Engine {
  import opened Bytes
  import opened Messages
  import opened Packets
  import opened Paths

  const ERROR_TFTP_GENERIC_ERROR := 1000
  const ERROR_TFTP_UNKNOWN_OPCODE := 1001
  const ERROR_TFTP_WRONG_BLOCK_NUM := 1002
  const ERROR_IO_TIMEOUT := 1004

  datatype FileState = Queued | Ready | WrqSent | DataSent | Error | Finished

  /** One ACTION_WRITE buffer; curpos is the offset of fb_curpos in fb_bytes. */
  datatype FileBuf = FileBuf(bytes: seq<byte>, curpos: nat, left: int)

  /** A FileTransfer. The last three fields are history: the buffers accepted from the client, the
      payloads of the acknowledged DATA packets, and the payloads thrown away when the file failed. */
  datatype Ftx = Ftx(
    name: FileName, state: FileState, blknum: nat, error: nat, buffers: seq<FileBuf>,
    writes: seq<seq<byte>>, acked: seq<seq<byte>>, dropped: seq<seq<byte>>)

  /** The state of the handler. Transfers are known by their position in the list, which only grows.
      The last five fields are history: the transfers picked so far, whether the internal packet was
      sent while still queued, whether a request was sent while in use, whether a pointer that leads
      nowhere was followed, and whether a timeout has failed another transfer than the active one. */
  datatype H = H(
    port: seq<Msg<nat>>, running: bool, busy: bool, transfers: seq<Ftx>,
    ioType: IoType, ioArg: Option<nat>, local: Option<nat>,
    serial: Request<Packet, Extracted>, timer: Countdown, tftppkt: seq<byte>,
    started: seq<nat>, reused: bool, clashed: bool, trapped: bool, stranded: bool)

  // ---------------------------------------------------------------------------------------
  // Chunks of a buffer
  // ---------------------------------------------------------------------------------------

  /** The payloads one buffer is sent in; an empty buffer is sent as one empty payload. */
  function Chunks(s: seq<byte>): (r: seq<seq<byte>>)
    ensures r != []
  {
    if |s| <= TFTP_MAX_DATA_SIZE then [s]
    else [s[..TFTP_MAX_DATA_SIZE]] + Chunks(s[TFTP_MAX_DATA_SIZE..])
  }

  /** The payloads of a list of buffers: each buffer is split on its own. */
  function Payloads(writes: seq<seq<byte>>): seq<seq<byte>> {
    if writes == [] then [] else Chunks(writes[0]) + Payloads(writes[1..])
  }

  predicate Fresh(b: FileBuf) {
    b.curpos == 0 && b.left == |b.bytes|
  }

  function FreshBuf(bytes: seq<byte>): FileBuf {
    FileBuf(bytes, 0, |bytes|)
  }

  function BytesOf(bufs: seq<FileBuf>): (r: seq<seq<byte>>)
    ensures |r| == |bufs|
  {
    seq(|bufs|, i requires 0 <= i < |bufs| => bufs[i].bytes)
  }

  /** The payloads of a buffer that are not acknowledged yet. */
  function RestOf(b: FileBuf): seq<seq<byte>> {
    if 0 <= b.left <= |b.bytes| then Chunks(b.bytes[|b.bytes| - b.left..]) else []
  }

  function Unacked(bufs: seq<FileBuf>): seq<seq<byte>> {
    if bufs == [] then [] else RestOf(bufs[0]) + Payloads(BytesOf(bufs[1..]))
  }

  /** The bytes memcpy takes for the next DATA packet lie inside the buffer. */
  predicate InBounds(b: FileBuf) {
    0 <= b.left && b.curpos + Min(b.left, TFTP_MAX_DATA_SIZE) <= |b.bytes|
  }

  function Chunk(b: FileBuf): (c: seq<byte>)
    requires InBounds(b)
    ensures |c| <= TFTP_MAX_DATA_SIZE
  {
    b.bytes[b.curpos..b.curpos + Min(b.left, TFTP_MAX_DATA_SIZE)]
  }

  // ---------------------------------------------------------------------------------------
  // Small steps
  // ---------------------------------------------------------------------------------------

  predicate Points(m: Msg<nat>, n: nat) {
    m.HasFtx() ==> m.ftx < n
  }

  /** Every reference names a transfer that exists. */
  predicate PtrOk(h: H) {
    && (forall m :: m in h.port ==> Points(m, |h.transfers|))
    && (h.ioArg.Some? ==> h.ioArg.value < |h.transfers|)
    && (h.local.Some? ==> h.local.value < |h.transfers|)
    && |h.tftppkt| >= 4
  }

  predicate HasInternal(q: seq<Msg<nat>>) {
    q != [] && (Internal(q[0]) || HasInternal(q[1..]))
  }

  function SendInternal(h: H, m: Msg<nat>): (r: H)
    ensures (PtrOk(h) && Points(m, |h.transfers|) ==> PtrOk(r)) && r.stranded == h.stranded
  {
    h.(port := h.port + [m], reused := h.reused || HasInternal(h.port))
  }

  function SetFtx(h: H, i: nat, t: Ftx): (r: H)
    requires i < |h.transfers|
    ensures (PtrOk(h) ==> PtrOk(r)) && r.stranded == h.stranded
  {
    h.(transfers := h.transfers[i := t])
  }

  /** A pointer that leads nowhere is followed; nothing is claimed about what happens then. */
  function Trap(h: H): (r: H)
    ensures (PtrOk(h) ==> PtrOk(r)) && r.stranded == h.stranded
  {
    h.(running := false, trapped := true)
  }

  /** The transfer fails: every error branch ends like this. */
  function Fail(h: H, i: nat, error: nat): (r: H)
    requires i < |h.transfers|
    ensures (PtrOk(h) ==> PtrOk(r)) && r.stranded == h.stranded
  {
    SendInternal(SetFtx(h, i, h.transfers[i].(state := Error, error := error)).(busy := false), FileFailed(i))
  }

  /** SendIO for the serial request, and for the timer that guards it. */
  function StartIo(h: H, op: Op<Packet>): (r: H)
    ensures (PtrOk(h) ==> PtrOk(r)) && r.stranded == h.stranded
  {
    h.(serial := Pending(op), timer := Running,
       clashed := h.clashed || h.serial != Idle || h.timer != Stopped)
  }

  /** What the handling of one message depends on outside the handler: whether memory could be
      allocated, and whether the frame of the packet it sends, if any, fits the frame buffer. */
  datatype Net = Net(mem: bool, fits: bool)

  /** The error a send ends with, or 0. */
  function SendError(net: Net): nat {
    if !net.mem then ERROR_NO_FREE_STORE
    else if !net.fits then ERROR_BUFFER_OVERFLOW
    else 0
  }

  function Send(h: H, i: nat, p: Packet, next: FileState, net: Net): (r: H)
    requires i < |h.transfers|
    ensures (PtrOk(h) ==> PtrOk(r)) && r.stranded == h.stranded
  {
    if SendError(net) == 0 then SetFtx(StartIo(h, OpWrite(p)), i, h.transfers[i].(state := next))
    else Fail(h, i, SendError(net))
  }

  /** netio_stop_timer: abort the timer request and take its reply off the port. */
  function StopTimer(h: H): (r: H)
    ensures (PtrOk(h) ==> PtrOk(r)) && r.stranded == h.stranded
  {
    WithoutMembers(h.port, Timer);
    h.(timer := Stopped, port := Without(h.port, Timer))
  }

  /** netio_abort: the same for the serial request. */
  function Abort(h: H): (r: H)
    ensures (PtrOk(h) ==> PtrOk(r)) && r.stranded == h.stranded
  {
    WithoutMembers(h.port, Kind.Serial);
    h.(serial := Idle, port := Without(h.port, Kind.Serial))
  }

  // ---------------------------------------------------------------------------------------
  // The messages
  // ---------------------------------------------------------------------------------------

  function NewFtx(path: CString): Ftx {
    var name := NamePart(path);
    Ftx(name[..Min(|name|, MAX_PATH_LEN - 1)], Queued, 0, 0, [], [], [], [])
  }

  function DoFindOutput(h: H, path: CString, mem: bool): (r: H)
    ensures (PtrOk(h) ==> PtrOk(r)) && r.stranded == h.stranded
  {
    if mem then h.(transfers := h.transfers + [NewFtx(path)]) else h
  }

  function DoWrite(h: H, i: nat, bytes: seq<byte>, mem: bool): (r: H)
    requires i < |h.transfers|
    ensures (PtrOk(h) ==> PtrOk(r)) && r.stranded == h.stranded
  {
    var t := h.transfers[i];
    if mem then
      SetFtx(h, i, t.(buffers := t.buffers + [FreshBuf(bytes)], writes := t.writes + [bytes]))
    else
      SendInternal(SetFtx(h, i, t.(state := Error, error := ERROR_NO_FREE_STORE)), FileFailed(i))
  }

  function DoEnd(h: H, i: nat): (r: H)
    requires i < |h.transfers|
    ensures (PtrOk(h) ==> PtrOk(r)) && r.stranded == h.stranded
  {
    SendInternal(SetFtx(h, i, h.transfers[i].(state := Ready)).(local := Some(i)), SendNextFile)
  }

  /** get_next_file_from_queue: the first transfer that is ready. */
  function NextReady(ts: seq<Ftx>, from: nat): (r: Option<nat>)
    requires from <= |ts|
    ensures r.Some? ==> from <= r.value < |ts| && ts[r.value].state == Ready
    ensures r.Some? ==> forall j :: from <= j < r.value ==> ts[j].state != Ready
    ensures r.None? ==> forall j :: from <= j < |ts| ==> ts[j].state != Ready
    decreases |ts| - from
  {
    if from == |ts| then None
    else if ts[from].state == Ready then Some(from)
    else NextReady(ts, from + 1)
  }

  function DoSendNextFile(h: H, net: Net): (r: H)
    ensures (PtrOk(h) ==> PtrOk(r)) && r.stranded == h.stranded
  {
    if h.busy then h
    else
      match NextReady(h.transfers, 0)
      case None => h.(local := None)
      case Some(i) =>
        var h1 := h.(busy := true, local := Some(i), ioType := WriteReturn, ioArg := Some(i),
                     started := h.started + [i]);
        Send(h1, i, Wrq(h.transfers[i].name), WrqSent, net)
  }

  /** The next DATA packet, from the head of the buffer list. */
  function SendChunk(h: H, i: nat, net: Net): (r: H)
    requires i < |h.transfers| && h.transfers[i].buffers != []
    ensures (PtrOk(h) ==> PtrOk(r)) && r.stranded == h.stranded
  {
    var t := h.transfers[i];
    var blknum := (t.blknum + 1) % TWO32;
    if !InBounds(t.buffers[0]) then Trap(h)
    else
      var h1 := SetFtx(h, i, t.(blknum := blknum)).(ioType := WriteReturn);
      Send(h1, i, Data(blknum % 0x10000, Chunk(t.buffers[0])), DataSent, net)
  }

  function DoSendNextBuffer(h: H, i: nat, net: Net): (r: H)
    requires i < |h.transfers|
    ensures (PtrOk(h) ==> PtrOk(r)) && r.stranded == h.stranded
  {
    var t := h.transfers[i];
    var h1 := h.(local := Some(i));
    if t.buffers != [] then SendChunk(h1, i, net)
    else SendInternal(SetFtx(h1, i, t.(state := Finished)).(busy := false), FileFinished(i))
  }

  function DoContinueBuffer(h: H, i: nat, net: Net): (r: H)
    requires i < |h.transfers|
    ensures (PtrOk(h) ==> PtrOk(r)) && r.stranded == h.stranded
  {
    var t := h.transfers[i];
    var h1 := h.(local := Some(i));
    if t.buffers == [] then Trap(h1)
    else
      var b := t.buffers[0].(curpos := t.buffers[0].curpos + TFTP_MAX_DATA_SIZE);
      SendChunk(SetFtx(h1, i, t.(buffers := [b] + t.buffers[1..])), i, net)
  }

  /** ACTION_FILE_FINISHED and ACTION_FILE_FAILED: release what is left of the file. */
  function DoFileDone(h: H, i: nat): (r: H)
    requires i < |h.transfers|
    ensures (PtrOk(h) ==> PtrOk(r)) && r.stranded == h.stranded
  {
    var t := h.transfers[i];
    SendInternal(SetFtx(h, i, t.(buffers := [], dropped := t.dropped + Unacked(t.buffers))).(local := Some(i)),
                 SendNextFile)
  }

  function DoBufferFinished(h: H, i: nat): (r: H)
    requires i < |h.transfers|
    ensures (PtrOk(h) ==> PtrOk(r)) && r.stranded == h.stranded
  {
    var t := h.transfers[i];
    var h1 := h.(local := Some(i));
    if t.buffers == [] then Trap(h1)
    else SendInternal(SetFtx(h1, i, t.(buffers := t.buffers[1..])), SendNextBuffer(i))
  }

  /** The status of the serial request is fetched; an error fails the transfer, and a request that is
      still out stops the handler, but neither keeps the code from going on. */
  function TakeStatus(h: H, i: nat): (r: H)
    requires i < |h.transfers|
    ensures (PtrOk(h) ==> PtrOk(r)) && r.stranded == h.stranded
  {
    if !h.serial.Replied? then h.(busy := false, running := false)
    else
      var h1 := h.(serial := Idle);
      if h.serial.status > 0 then Fail(h1, i, h.serial.status) else h1
  }

  /** recv_tftp_packet, and the branch taken when it fails. */
  function StartRead(h: H, i: nat, mem: bool): (r: H)
    requires i < |h.transfers|
    ensures (PtrOk(h) ==> PtrOk(r)) && r.stranded == h.stranded
  {
    if mem then StartIo(h.(ioType := ReadReturn), OpRead)
    else Fail(h.(ioType := ReadReturn), i, ERROR_NO_FREE_STORE)
  }

  /** do_write_return. */
  function DoWriteReturn(h: H, i: nat, mem: bool): (r: H)
    requires i < |h.transfers|
    ensures (PtrOk(h) ==> PtrOk(r)) && r.stranded == h.stranded
  {
    StartRead(TakeStatus(StopTimer(h), i), i, mem)
  }

  /** The received packet overwrites the start of tftppkt; the rest keeps its old contents. */
  function Overlay(before: seq<byte>, bytes: seq<byte>): (r: seq<byte>)
    ensures |r| >= |before|
  {
    if |bytes| <= |before| then bytes + before[|bytes|..] else bytes
  }

  /** A packet that cannot be extracted fails the transfer and leaves the previous one in tftppkt. */
  function TakePacket(h: H, i: nat, x: Extracted): (r: H)
    requires i < |h.transfers|
    ensures (PtrOk(h) ==> PtrOk(r)) && r.stranded == h.stranded
    ensures |r.transfers| == |h.transfers| && |r.tftppkt| >= |h.tftppkt|
  {
    match x
    case Payload(bytes) => h.(tftppkt := Overlay(h.tftppkt, bytes))
    case Rejected(errno) => Fail(h, i, errno)
  }

  /** The reply of a read, successful or not. */
  predicate HasData(r: Request<Packet, Extracted>) {
    r.Replied? && r.op == OpRead
  }

  /** do_read_return. Nothing is claimed about what it finds in the memory of a read that is still out,
      or of a write; in orderly runs it never looks there. An I/O error does not keep the code from
      looking at the data, nor do data that cannot be extracted keep it from looking at what is in
      tftppkt. */
  function DoReadReturn(h: H, i: nat, mem: bool): (r: H)
    requires i < |h.transfers| && PtrOk(h)
    ensures PtrOk(r) && r.stranded == h.stranded
  {
    var h1 := StopTimer(h);
    if !HasData(h1.serial) then Trap(h1)
    else
      var x := if mem then h1.serial.reply else Rejected(ERROR_NO_FREE_STORE);
      DoReply(TakePacket(TakeStatus(h1, i), i, x), i)
  }

  /** The opcode switch of do_read_return. */
  function DoReply(h: H, i: nat): (r: H)
    requires i < |h.transfers| && |h.tftppkt| >= 4
    ensures (PtrOk(h) ==> PtrOk(r)) && r.stranded == h.stranded
  {
    if GetOpcode(h.tftppkt) == OP_ACK then DoAck(h, i, GetBlknum(h.tftppkt))
    else if GetOpcode(h.tftppkt) == OP_ERROR then Fail(h, i, ERROR_TFTP_GENERIC_ERROR)
    else Fail(h, i, ERROR_TFTP_UNKNOWN_OPCODE)
  }

  function DoAck(h: H, i: nat, blknum: word): (r: H)
    requires i < |h.transfers|
    ensures (PtrOk(h) ==> PtrOk(r)) && r.stranded == h.stranded
  {
    var t := h.transfers[i];
    match t.state
    case WrqSent => SendInternal(h, SendNextBuffer(i))
    case DataSent => if blknum == t.blknum then DoAcked(h, i) else Fail(h, i, ERROR_TFTP_WRONG_BLOCK_NUM)
    case _ => h.(busy := false, running := false)
  }

  /** The chunk last sent is acknowledged. */
  function DoAcked(h: H, i: nat): (r: H)
    requires i < |h.transfers|
    ensures (PtrOk(h) ==> PtrOk(r)) && r.stranded == h.stranded
  {
    var t := h.transfers[i];
    if t.buffers == [] || !InBounds(t.buffers[0]) then Trap(h)
    else
      var b := t.buffers[0];
      var b1 := b.(left := b.left - TFTP_MAX_DATA_SIZE);
      var h1 := SetFtx(h, i, t.(buffers := [b1] + t.buffers[1..], acked := t.acked + [Chunk(b)]));
      SendInternal(h1, if b1.left > 0 then ContinueBuffer(i) else BufferFinished(i))
  }

  /** The serial request is aborted; the reply of the timer request has been received. */
  function Abandon(h: H): (r: H)
    ensures PtrOk(h) ==> PtrOk(r)
    ensures r.local == h.local && r.transfers == h.transfers
  {
    Abort(h).(timer := Stopped, stranded := h.stranded || (h.busy && h.local != h.ioArg))
  }

  /** ACTION_TIMER_EXPIRED fails whatever transfer the local variable of the main loop names. */
  function DoTimerExpired(h: H): (r: H)
    requires PtrOk(h)
    ensures PtrOk(h) ==> PtrOk(r)
  {
    var h1 := Abandon(h);
    match h.local
    case None => Trap(h1)
    case Some(i) => Fail(h1, i, ERROR_IO_TIMEOUT)
  }

  function DoSerialReply(h: H, mem: bool): (r: H)
    requires PtrOk(h)
    ensures (PtrOk(h) ==> PtrOk(r)) && r.stranded == h.stranded
  {
    match h.ioArg
    case None => Trap(h)
    case Some(i) =>
      match h.ioType
      case WriteReturn => DoWriteReturn(h, i, mem)
      case ReadReturn => DoReadReturn(h, i, mem)
      case NoIo => Trap(h)
  }

  /** The packet the handling of the first message would send. */
  function Outgoing(h: H): Option<Packet>
    requires PtrOk(h) && h.port != []
  {
    assert Points(h.port[0], |h.transfers|);
    match h.port[0]
    case SendNextFile =>
      var next := NextReady(h.transfers, 0);
      if h.busy || next.None? then None else Some(Wrq(h.transfers[next.value].name))
    case SendNextBuffer(i) => OutgoingChunk(h.transfers[i], 0)
    case ContinueBuffer(i) => OutgoingChunk(h.transfers[i], TFTP_MAX_DATA_SIZE)
    case _ => None
  }

  function OutgoingChunk(t: Ftx, advance: nat): Option<Packet> {
    if t.buffers == [] then None
    else
      var b := t.buffers[0].(curpos := t.buffers[0].curpos + advance);
      if InBounds(b) then Some(Data((t.blknum + 1) % TWO32 % 0x10000, Chunk(b))) else None
  }

  /** The state after the first message is taken off the port. */
  function Rest1(h: H): H
    requires h.port != []
  {
    h.(port := h.port[1..])
  }

  /** One pass of the main loop: the first message of the port is taken off and handled. */
  function Handle(h: H, net: Net): (r: H)
    requires PtrOk(h) && h.port != []
    ensures PtrOk(h) ==> PtrOk(r)
  {
    var m := h.port[0];
    assert Points(m, |h.transfers|);
    var h1 := Rest1(h);
    match m
    case FindOutput(path) => DoFindOutput(h1, path, net.mem)
    case Write(i, bytes) => DoWrite(h1, i, bytes, net.mem)
    case End(i) => DoEnd(h1, i)
    case Die => Abort(h1).(running := false)
    case Other => h1
    case SendNextFile => DoSendNextFile(h1, net)
    case SendNextBuffer(i) => DoSendNextBuffer(h1, i, net)
    case ContinueBuffer(i) => DoContinueBuffer(h1, i, net)
    case BufferFinished(i) => DoBufferFinished(h1, i)
    case FileFinished(i) => DoFileDone(h1, i)
    case FileFailed(i) => DoFileDone(h1, i)
    case SerialReply => DoSerialReply(h1, net.mem)
    case TimerReply => DoTimerExpired(h1)
  }

  // ---------------------------------------------------------------------------------------
  // Runs
  // ---------------------------------------------------------------------------------------

  datatype Move =
    | Step(net: Net)
    | ClientSends(msg: Msg<nat>)
    | WriteDone(status: nat)
    | ReadDone(status: nat, reply: Extracted)
    | TimerFires

  /** The handler when its main loop starts. tftppkt is not initialised. */
  predicate Initial(h: H) {
    && h.port == [] && h.running && !h.busy && h.transfers == []
    && h.ioType == NoIo && h.ioArg == None && h.local == None
    && h.serial == Idle && h.timer == Stopped && |h.tftppkt| >= 4
    && h.started == [] && !h.reused && !h.clashed && !h.trapped && !h.stranded
  }

  /** What can happen at all, whatever clients, devices and the server do. A client only holds
      handles of files it has opened. */
  predicate Possible(h: H, mv: Move) {
    && h.running
    && match mv
       case Step(_) => h.port != []
       case ClientSends(m) => KindOf(m) == Client && Points(m, |h.transfers|)
       case WriteDone(_) => h.serial.Pending? && h.serial.op.OpWrite?
       case ReadDone(_, _) => h.serial == Pending(OpRead)
       case TimerFires => h.timer == Running
  }

  function Apply(h: H, mv: Move): (r: H)
    requires PtrOk(h) && Possible(h, mv)
    ensures PtrOk(r)
  {
    match mv
    case Step(net) => Handle(h, net)
    case ClientSends(m) => h.(port := h.port + [m])
    case WriteDone(status) => h.(serial := Replied(h.serial.op, status, Payload([])), port := h.port + [SerialReply])
    case ReadDone(status, reply) => h.(serial := Replied(OpRead, status, reply), port := h.port + [SerialReply])
    case TimerFires => h.(timer := Fired, port := h.port + [TimerReply])
  }

  ghost predicate PossibleRun(h: H, moves: seq<Move>)
    requires PtrOk(h)
    decreases |moves|
  {
    moves == [] || (Possible(h, moves[0]) && PossibleRun(Apply(h, moves[0]), moves[1..]))
  }

  /** The state at the end of a run. */
  ghost function After(h: H, moves: seq<Move>): (r: H)
    requires PtrOk(h) && PossibleRun(h, moves)
    ensures PtrOk(r)
    decreases |moves|
  {
    if moves == [] then h else After(Apply(h, moves[0]), moves[1..])
  }

  /** An assumption about single moves holds for every move of a run. */
  ghost predicate Throughout(h: H, moves: seq<Move>, assumption: (H, Move) -> bool)
    requires PtrOk(h) && PossibleRun(h, moves)
    decreases |moves|
  {
    moves == [] || (assumption(h, moves[0]) && Throughout(Apply(h, moves[0]), moves[1..], assumption))
  }
}

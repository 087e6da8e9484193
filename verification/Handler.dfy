/** handler.c and dos.c as they are written: one object whose fields are the globals and the locals of
    the main loop, and methods that change them message by message. The ghost field view is the abstract
    state; every method says which step of Engine it performs. */
module Handler {
  import opened Bytes
  import opened Messages
  import opened Packets
  import opened Paths
  import opened Engine
  import opened NetIo

  // ---------------------------------------------------------------------------------------
  // What a pass is given, and what it demands
  // ---------------------------------------------------------------------------------------

  predicate SendGranted(grants: seq<bool>) {
    Granted(grants, 0) && Granted(grants, 1) && Granted(grants, 2)
  }

  /** The outcome of sending p, given the outcomes of the allocations for it. */
  function SendNet(grants: seq<bool>, p: Packet): Net {
    Net(Granted(grants, 0) && SendGranted(Later(grants)), Fits(TftpBytes(p)))
  }

  /** Whether every allocation succeeds that the handling of a message attempts which sends nothing. */
  predicate MemFor(h: H, grants: seq<bool>)
    requires h.port != []
  {
    match h.port[0]
    case FindOutput(_) => Granted(grants, 0)
    case Write(_, _) => Granted(grants, 0) && Granted(grants, 1)
    case SerialReply =>
      && Granted(grants, 0)
      && (h.ioType == ReadReturn && h.serial.Replied? && h.serial.reply.Payload? ==>
            Granted(grants, 1) && Granted(grants, 2))
    case _ => false
  }

  /** The outside conditions of a pass, from the outcomes of its allocations: the frame of the packet
      it sends fits or does not. */
  function NetFor(h: H, grants: seq<bool>): Net
    requires PtrOk(h) && h.port != []
  {
    match Outgoing(h)
    case None => Net(MemFor(h, grants), false)
    case Some(p) => SendNet(grants, p)
  }

  // ---------------------------------------------------------------------------------------
  // Records
  // ---------------------------------------------------------------------------------------

  class FileBuffer {
    const bytes: array<byte>
    var curpos: nat
    var left: int
    ghost const owner: FileTransfer

    constructor (contents: seq<byte>, ftx: FileTransfer)
      ensures fresh(bytes) && bytes[..] == contents && curpos == 0 && left == |contents| && owner == ftx
    {
      var copy := new byte[|contents|];
      bytes, curpos, left, owner := copy, 0, |contents|, ftx;
      new;
      CopyIn(bytes, 0, contents);
      assert bytes[..] == bytes[..|contents|];
    }

    ghost predicate Is(b: FileBuf)
      reads this, bytes
    {
      bytes[..] == b.bytes && curpos == b.curpos && left == b.left
    }
  }

  class FileTransfer {
    var fname: FileName
    var state: FileState
    var blknum: nat
    var error: nat
    var buffers: seq<FileBuffer>

    constructor (name: FileName)
      ensures fname == name && state == Queued && blknum == 0 && error == 0 && buffers == []
    {
      fname, state, blknum, error, buffers := name, Queued, 0, 0, [];
    }

    ghost predicate Is(t: Ftx)
      reads this, buffers, set b | b in buffers :: b.bytes
    {
      && fname == t.name && state == t.state && blknum == t.blknum && error == t.error
      && |buffers| == |t.buffers|
      && (forall k :: 0 <= k < |buffers| ==> buffers[k].Is(t.buffers[k]) && buffers[k].owner == this)
      && (forall k, l :: 0 <= k < l < |buffers| ==> buffers[k] != buffers[l])
    }
  }

  method PutFields(ftx: FileTransfer, state: FileState, blknum: nat, error: nat, ghost t: Ftx)
    requires ftx.Is(t)
    modifies ftx`state, ftx`blknum, ftx`error
    ensures ftx.Is(t.(state := state, blknum := blknum, error := error))
  {
    ftx.state, ftx.blknum, ftx.error := state, blknum, error;
  }

  /** Buffers are taken off the front of the list. */
  method TakeOff(ftx: FileTransfer, n: nat, ghost t: Ftx, ghost t1: Ftx)
    requires n <= |ftx.buffers| && ftx.Is(t) && t1 == t.(buffers := t.buffers[n..], dropped := t1.dropped)
    modifies ftx`buffers
    ensures ftx.buffers == old(ftx.buffers)[n..] && ftx.Is(t1)
    ensures forall b :: b in ftx.buffers ==> b in old(ftx.buffers)
  {
    ghost var b, v := ftx.buffers, t.buffers;
    ftx.buffers := ftx.buffers[n..];
    assert forall k :: n <= k < |b| ==> b[k].Is(v[k]) && b[k].owner == ftx;
    assert forall k :: 0 <= k < |b| - n ==> ftx.buffers[k] == b[n + k] && t1.buffers[k] == v[n + k];
  }

  /** The message a client or the code itself has put into the port. */
  ghost function Real(v: Msg<nat>, ts: seq<FileTransfer>): (m: Msg<FileTransfer>)
    requires Points(v, |ts|)
    ensures KindOf(m) == KindOf(v)
  {
    match v
    case FindOutput(path) => FindOutput(path)
    case Write(i, bytes) => Write(ts[i], bytes)
    case End(i) => End(ts[i])
    case Die => Die
    case Other => Other
    case SendNextFile => SendNextFile
    case SendNextBuffer(i) => SendNextBuffer(ts[i])
    case ContinueBuffer(i) => ContinueBuffer(ts[i])
    case BufferFinished(i) => BufferFinished(ts[i])
    case FileFinished(i) => FileFinished(ts[i])
    case FileFailed(i) => FileFailed(ts[i])
    case SerialReply => SerialReply
    case TimerReply => TimerReply
  }

  ghost predicate SameQueue(q: seq<Msg<FileTransfer>>, v: seq<Msg<nat>>, ts: seq<FileTransfer>) {
    |q| == |v| && forall k :: 0 <= k < |v| ==> Points(v[k], |ts|) && q[k] == Real(v[k], ts)
  }

  lemma {:induction false} SameWithout(q: seq<Msg<FileTransfer>>, v: seq<Msg<nat>>, ts: seq<FileTransfer>, k: Kind)
    requires SameQueue(q, v, ts)
    ensures SameQueue(Without(q, k), Without(v, k), ts)
  {
    hide KindOf;
    if v != [] {
      assert Points(v[0], |ts|) && q[0] == Real(v[0], ts);
      SameWithout(q[1..], v[1..], ts, k);
    }
  }

  lemma SameQueueMore(q: seq<Msg<FileTransfer>>, v: seq<Msg<nat>>, ts: seq<FileTransfer>, ftx: FileTransfer)
    requires SameQueue(q, v, ts)
    ensures SameQueue(q, v, ts + [ftx])
  {
  }

  lemma SendErrorIs(grants: seq<bool>, p: Packet)
    requires Sendable(p)
    ensures SendError(SendNet(grants, p)) ==
              if !Granted(grants, 0) then ERROR_NO_FREE_STORE else SendFailure(TftpBytes(p), Later(grants))
  {
    hide Fits, TftpBytes, SendFailure;
    UploadFailure(p, Later(grants));
  }

  /** What a request of netio.c stands for. */
  ghost predicate SameOp(op: Op<seq<byte>>, v: Op<Packet>) {
    match v
    case OpWrite(p) => op == OpWrite(FrameOf(TftpBytes(p)))
    case OpRead => op == OpRead
  }

  ghost predicate SameRef(ftx: FileTransfer?, v: Option<nat>, ts: seq<FileTransfer>) {
    match v
    case None => ftx == null
    case Some(i) => i < |ts| && ftx == ts[i]
  }

  class Handler {
    const port: MsgPort<FileTransfer>
    const net: NetIo<FileTransfer>
    const tftppkt: Buffer
    var running: bool
    var busy: bool
    var transfers: seq<FileTransfer>
    var ioType: IoType
    var ioArg: FileTransfer?
    var local: FileTransfer?
    ghost var view: H
    ghost var Repr: set<object>

    ghost predicate Owned()
      reads this, Repr
    {
      && {this, port, net, tftppkt, tftppkt.addr} <= Repr && net.port == port && tftppkt.Valid()
      && (forall i, j :: 0 <= i < j < |transfers| ==> transfers[i] != transfers[j])
      && (forall i :: 0 <= i < |transfers| ==> transfers[i] in Repr)
      && (forall i :: 0 <= i < |transfers| ==>
            forall b :: b in transfers[i].buffers ==> b in Repr && b.bytes in Repr && b.bytes != tftppkt.addr)
    }

    ghost predicate FilesTied()
      reads this, Repr
      requires Owned()
    {
      && |transfers| == |view.transfers|
      && forall i :: 0 <= i < |transfers| ==> transfers[i].Is(view.transfers[i])
    }

    ghost predicate FlagsTied()
      reads this, tftppkt, tftppkt.addr
    {
      && running == view.running && busy == view.busy && ioType == view.ioType
      && SameRef(ioArg, view.ioArg, transfers) && SameRef(local, view.local, transfers)
      && tftppkt.addr[..] == view.tftppkt
    }

    ghost predicate NetTied()
      reads this, Repr, net
    {
      && net.timer == view.timer
      && match view.serial
         case Idle => net.serial == Idle
         case Pending(op) => net.serial.Pending? && SameOp(net.serial.op, op)
         case Replied(op, status, reply) =>
           && net.serial.Replied? && SameOp(net.serial.op, op) && net.serial.status == status
           && (op == OpRead ==> Brings(net.serial.reply, reply))
    }

    /** The memory a read has filled, and what can be made of it. */
    ghost predicate Brings(data: Incoming, x: Extracted)
      reads this, Repr
    {
      && data.Incoming? && data.addr in Repr && data.addr != tftppkt.addr
      && Readable(data.addr[..], data.actual) && x == Extract(data.addr[..], data.actual)
    }

    ghost predicate Valid()
      reads this, Repr
    {
      && Owned() && PtrOk(view) && FilesTied() && FlagsTied() && NetTied()
      && SameQueue(port.queue, view.port, transfers)
    }

    /** The state before the main loop. */
    constructor ()
      ensures Valid() && Initial(view) && fresh(Repr)
    {
      var p := new MsgPort<FileTransfer>();
      var n := new NetIo<FileTransfer>(p, []);
      var pkt := new Buffer(MAX_BUFFER_SIZE);
      port, net, tftppkt := p, n, pkt;
      running, busy, transfers, ioType, ioArg, local := true, false, [], NoIo, null, null;
      view := H([], true, false, [], NoIo, None, None, Idle, Stopped, pkt.addr[..], [], false, false, false, false);
      new;
      Repr := {this, port, net, tftppkt, tftppkt.addr};
    }

    /** send_internal_packet, after the fields of the packet have been set. */
    method SendInternalPacket(m: Msg<FileTransfer>, ghost v: Msg<nat>)
      requires Valid() && Points(v, |transfers|) && m == Real(v, transfers)
      modifies this`view, port
      ensures Valid() && view == SendInternal(old(view), v)
    {
      hide HasInternal, PtrOk, Extract;
      port.queue := port.queue + [m];
      view := SendInternal(view, v);
    }

    /** Three fields of a record are set. */
    method SetRecord(ftx: FileTransfer, ghost i: nat, state: FileState, blknum: nat, error: nat)
      requires Valid() && i < |transfers| && ftx == transfers[i]
      modifies this`view, ftx`state, ftx`blknum, ftx`error
      ensures Valid()
      ensures i < |old(view).transfers|
      ensures view == SetFtx(old(view), i, old(view).transfers[i].(state := state, blknum := blknum, error := error))
    {
      hide PtrOk, Extract, Readable, SameQueue, SameOp, FileTransfer.Is;
      RecordIs(ftx, i);
      PutFields(ftx, state, blknum, error, view.transfers[i]);
      view := SetFtx(view, i, view.transfers[i].(state := state, blknum := blknum, error := error));
    }

    method SetBusy(b: bool)
      requires Valid()
      modifies this`busy, this`view
      ensures Valid() && view == old(view).(busy := b)
    {
      hide Extract, SameQueue, FileTransfer.Is;
      busy := b;
      view := view.(busy := b);
    }

    method SetLocal(ftx: FileTransfer?, ghost i: Option<nat>)
      requires Valid() && SameRef(ftx, i, transfers)
      modifies this`local, this`view
      ensures Valid() && view == old(view).(local := i)
    {
      hide Extract, SameQueue, FileTransfer.Is;
      local := ftx;
      view := view.(local := i);
    }

    /** The file becomes the one the link works for. */
    method Engage(ftx: FileTransfer, ghost i: nat)
      requires Valid() && i < |transfers| && ftx == transfers[i]
      modifies this`busy, this`ioType, this`ioArg, this`view
      ensures Valid()
      ensures var h := old(view);
              view == h.(busy := true, ioType := WriteReturn, ioArg := Some(i), started := h.started + [i])
    {
      hide Extract, SameQueue, FileTransfer.Is;
      busy, ioType, ioArg := true, WriteReturn, ftx;
      view := view.(busy := true, ioType := WriteReturn, ioArg := Some(i), started := view.started + [i]);
    }

    lemma RecordIs(ftx: FileTransfer, i: nat)
      requires Valid() && i < |transfers| && ftx == transfers[i]
      ensures |transfers| == |view.transfers| && ftx.Is(view.transfers[i])
    {
      hide PtrOk, Extract, SameQueue, FileTransfer.Is;
    }

    /** What every error branch does. */
    method Fail(ftx: FileTransfer, ghost i: nat, error: nat)
      requires Valid() && i < |transfers| && ftx == transfers[i]
      modifies this`view, this`busy, port, ftx`state, ftx`blknum, ftx`error
      ensures Valid() && i < |old(view).transfers| && view == Engine.Fail(old(view), i, error)
    {
      hide PtrOk, Valid, SendInternal;
      RecordIs(ftx, i);
      SetRecord(ftx, i, FileState.Error, ftx.blknum, error);
      SetBusy(false);
      ghost var v := FileFailed(i);
      SendInternalPacket(FileFailed(ftx), v);
    }

    /** A send has gone well: the two requests are outstanding. */
    method Started(ftx: FileTransfer, ghost i: nat, ghost p: Packet, next: FileState)
      requires Owned() && PtrOk(view) && FilesTied() && FlagsTied() && SameQueue(port.queue, view.port, transfers)
      requires i < |transfers| && ftx == transfers[i]
      requires net.serial == Pending(OpWrite(FrameOf(TftpBytes(p)))) && net.timer == Running
      modifies this`view, ftx`state, ftx`blknum, ftx`error
      ensures Valid() && i < |old(view).transfers|
      ensures view == SetFtx(StartIo(old(view), OpWrite(p)), i, old(view).transfers[i].(state := next))
    {
      hide PtrOk, Extract, SameQueue, FrameOf, TftpBytes;
      view := StartIo(view, OpWrite(p));
      RecordIs(ftx, i);
      SetRecord(ftx, i, next, ftx.blknum, ftx.error);
    }

    method SendRequest(ftx: FileTransfer, ghost i: nat)
      requires Valid() && i < |transfers| && ftx == transfers[i]
      modifies this`view, this`busy, port, net, ftx`state, ftx`blknum, ftx`error
      ensures Valid() && i < |old(view).transfers|
      ensures var p := Wrq(old(view).transfers[i].name);
              view == Send(old(view), i, p, WrqSent, SendNet(old(net.grants), p))
    {
      hide PtrOk, Extract, SameQueue, FrameOf, Engine.Fail, SendFailure, Fits, SendNet, StartIo;
      RecordIs(ftx, i);
      ghost var p := Wrq(ftx.fname);
      SendErrorIs(net.grants, p);
      var ok := net.SendTftpReqPacket(OP_WRQ, ftx.fname);
      if ok {
        Started(ftx, i, p, WrqSent);
      } else {
        Fail(ftx, i, net.errno);
      }
    }

    /** The call of send_tftp_data_packet for the chunk at the cursor. */
    method CallSendData(ftx: FileTransfer, ghost i: nat, ghost p: Packet) returns (ok: bool)
      requires Valid() && i < |transfers| && ftx == transfers[i] && i < |view.transfers| && ftx.buffers != []
      requires |view.transfers[i].buffers| > 0 && InBounds(view.transfers[i].buffers[0])
      requires p == Data(ftx.blknum % 0x10000, Chunk(view.transfers[i].buffers[0]))
      modifies net
      ensures net.errno == SendError(SendNet(old(net.grants), p)) && (ok <==> net.errno == 0)
      ensures ok ==> net.serial == Pending(OpWrite(FrameOf(TftpBytes(p)))) && net.timer == Running
      ensures !ok ==> net.serial == old(net.serial) && net.timer == old(net.timer)
    {
      hide PtrOk, Extract, SameQueue, FrameOf, SendFailure, Fits, SendNet, NetTied, FlagsTied, Owned;
      RecordIs(ftx, i);
      var fbuf := ftx.buffers[0];
      SendErrorIs(net.grants, p);
      assert fbuf.Is(view.transfers[i].buffers[0]);
      ok := net.SendTftpDataPacket(ftx.blknum % 0x10000, fbuf.bytes, fbuf.curpos, fbuf.left);
    }

    method SendData(ftx: FileTransfer, ghost i: nat)
      requires Valid() && i < |transfers| && ftx == transfers[i] && ftx.buffers != []
      requires |view.transfers[i].buffers| > 0 && InBounds(view.transfers[i].buffers[0])
      modifies this`view, this`busy, port, net, ftx`state, ftx`blknum, ftx`error
      ensures Valid() && i < |old(view).transfers|
      ensures var t := old(view).transfers[i]; var p := Data(t.blknum % 0x10000, Chunk(t.buffers[0]));
              view == Send(old(view), i, p, DataSent, SendNet(old(net.grants), p))
    {
      hide PtrOk, Extract, SameQueue, FrameOf, Engine.Fail, SendFailure, Fits, SendNet, StartIo, TftpBytes,
           Chunk, InBounds;
      RecordIs(ftx, i);
      ghost var p := Data(ftx.blknum % 0x10000, Chunk(view.transfers[i].buffers[0]));
      var ok := CallSendData(ftx, i, p);
      if ok {
        Started(ftx, i, p, DataSent);
      } else {
        Fail(ftx, i, net.errno);
      }
    }

    /** The next packet of a file whose cursor stands where it should. */
    method SendChunk(ftx: FileTransfer, ghost i: nat)
      requires Valid() && i < |transfers| && ftx == transfers[i] && ftx.buffers != []
      requires |view.transfers[i].buffers| > 0 && InBounds(view.transfers[i].buffers[0])
      modifies this`view, this`busy, this`ioType, port, net, ftx`state, ftx`blknum, ftx`error
      ensures Valid() && i < |old(view).transfers|
      ensures var t := old(view).transfers[i];
              var p := Data((t.blknum + 1) % TWO32 % 0x10000, Chunk(t.buffers[0]));
              view == Engine.SendChunk(old(view), i, SendNet(old(net.grants), p))
    {
      hide Valid, PtrOk, Send, Chunk, InBounds, SendNet;
      RecordIs(ftx, i);
      SetRecord(ftx, i, ftx.state, (ftx.blknum + 1) % TWO32, ftx.error);
      SetType(WriteReturn);
      SendData(ftx, i);
    }

    method SetType(t: IoType)
      requires Valid()
      modifies this`ioType, this`view
      ensures Valid() && view == old(view).(ioType := t)
    {
      hide Extract, SameQueue, FileTransfer.Is;
      ioType := t;
      view := view.(ioType := t);
    }

    // -------------------------------------------------------------------------------------
    // The internal packets
    // -------------------------------------------------------------------------------------

    /** get_next_file_from_queue walks the list until it finds a file that is ready. */
    method GetNextFileFromQueue() returns (ftx: FileTransfer?, ghost i: Option<nat>)
      requires Valid()
      ensures i == NextReady(view.transfers, 0) && SameRef(ftx, i, transfers)
      ensures ftx == null ==> forall j :: 0 <= j < |transfers| ==> transfers[j].state != Ready
      ensures ftx != null ==>
                exists k :: 0 <= k < |transfers| && transfers[k] == ftx && ftx.state == Ready
                            && forall j :: 0 <= j < k ==> transfers[j].state != Ready
    {
      hide PtrOk, Extract, SameQueue, FlagsTied, NetTied;
      var k := 0;
      while k < |transfers|
        invariant k <= |transfers| == |view.transfers|
        invariant forall j :: 0 <= j < k ==> transfers[j].state != Ready
        invariant NextReady(view.transfers, 0) == NextReady(view.transfers, k)
      {
        RecordIs(transfers[k], k);
        if transfers[k].state == Ready {
          return transfers[k], Some(k);
        }
        k := k + 1;
      }
      return null, None;
    }

    method DoSendNextFile()
      requires Valid()
      modifies Repr
      ensures Valid() && Repr == old(Repr)
      ensures view == Engine.DoSendNextFile(old(view), PickNet(old(view), old(net.grants)))
    {
      hide PtrOk, Extract, SameQueue, NetTied, FilesTied, Send, SendNet, NextReady;
      if !busy {
        var ftx, i := GetNextFileFromQueue();
        SetLocal(ftx, i);
        if ftx != null {
          Engage(ftx, i.value);
          SendRequest(ftx, i.value);
        }
      }
    }

    method DoSendNextBuffer(ftx: FileTransfer, ghost i: nat)
      requires Valid() && i < |transfers| == |view.transfers| && ftx == transfers[i]
      requires view.transfers[i].buffers != [] ==> InBounds(view.transfers[i].buffers[0])
      modifies this`view, this`busy, this`ioType, this`local, port, net, ftx`state, ftx`blknum, ftx`error
      ensures Valid() && i < |old(view).transfers|
      ensures view == Engine.DoSendNextBuffer(old(view), i, ChunkNet(old(view).transfers[i], 0, old(net.grants)))
    {
      hide Valid, PtrOk, SendNet, Chunk, InBounds, HasInternal, Engine.SendChunk;
      RecordIs(ftx, i);
      SetLocal(ftx, Some(i));
      RecordIs(ftx, i);
      ghost var t := view.transfers[i];
      if ftx.buffers != [] {
        assert t.buffers[0].(curpos := t.buffers[0].curpos + 0) == t.buffers[0];
        SendChunk(ftx, i);
      } else {
        SetRecord(ftx, i, Finished, ftx.blknum, ftx.error);
        SetBusy(false);
        ghost var v := FileFinished(i);
        SendInternalPacket(FileFinished(ftx), v);
      }
    }

    lemma NotShared(fbuf: FileBuffer, i: nat)
      requires Valid() && i < |transfers| && fbuf in transfers[i].buffers
      ensures forall j :: 0 <= j < |transfers| && j != i ==> fbuf !in transfers[j].buffers
    {
      hide Extract, SameQueue, NetTied, PtrOk;
      assert transfers[i].Is(view.transfers[i]);
      forall j | 0 <= j < |transfers| && j != i
        ensures fbuf !in transfers[j].buffers
      {
        assert transfers[j].Is(view.transfers[j]);
        assert transfers[j] != transfers[i];
      }
    }

    /** The cursor of the first buffer and what it has left are set. */
    method SetBuffer(ftx: FileTransfer, ghost i: nat, curpos: nat, left: int, ghost acked: seq<seq<byte>>)
      requires Valid() && i < |transfers| && ftx == transfers[i] && ftx.buffers != []
      modifies ftx.buffers[0], this`view
      ensures Valid() && i < |old(view).transfers| && old(view).transfers[i].buffers != []
      ensures var t := old(view).transfers[i]; var b := t.buffers[0].(curpos := curpos, left := left);
              view == SetFtx(old(view), i, t.(buffers := [b] + t.buffers[1..], acked := acked))
      ensures ftx.buffers[0].left == left
    {
      hide Extract, SameQueue, SameOp;
      RecordIs(ftx, i);
      var fbuf := ftx.buffers[0];
      NotShared(fbuf, i);
      ghost var t, before := view.transfers[i], view.transfers;
      fbuf.curpos, fbuf.left := curpos, left;
      view := SetFtx(view, i,
                     t.(buffers := [t.buffers[0].(curpos := curpos, left := left)] + t.buffers[1..], acked := acked));
      forall j | 0 <= j < |transfers|
        ensures transfers[j].Is(view.transfers[j])
      {
        assert old(transfers[j].Is(before[j]));
        if j != i {
          assert fbuf !in transfers[j].buffers;
        }
      }
    }

    method DoContinueBuffer(ftx: FileTransfer, ghost i: nat)
      requires Valid() && i < |transfers| == |view.transfers| && ftx == transfers[i]
      requires OutgoingChunk(view.transfers[i], TFTP_MAX_DATA_SIZE).Some?
      modifies this`view, this`busy, this`ioType, this`local, port, net, ftx`state, ftx`blknum, ftx`error, ftx.buffers
      ensures Valid() && i < |old(view).transfers|
      ensures view == Engine.DoContinueBuffer(old(view), i,
                        ChunkNet(old(view).transfers[i], TFTP_MAX_DATA_SIZE, old(net.grants)))
    {
      hide Valid, PtrOk, SendNet, Chunk, InBounds, HasInternal, Engine.SendChunk;
      RecordIs(ftx, i);
      SetLocal(ftx, Some(i));
      RecordIs(ftx, i);
      var fbuf := ftx.buffers[0];
      assert fbuf.Is(view.transfers[i].buffers[0]);
      SetBuffer(ftx, i, fbuf.curpos + TFTP_MAX_DATA_SIZE, fbuf.left, view.transfers[i].acked);
      SendChunk(ftx, i);
    }

    /** The first n buffers are taken off the list. */
    method DropBuffers(ftx: FileTransfer, ghost i: nat, n: nat, ghost t1: Ftx)
      requires Valid() && i < |transfers| == |view.transfers| && ftx == transfers[i]
      requires n <= |ftx.buffers| == |view.transfers[i].buffers|
      requires t1 == view.transfers[i].(buffers := view.transfers[i].buffers[n..], dropped := t1.dropped)
      modifies ftx`buffers, this`view
      ensures Valid() && view == SetFtx(old(view), i, t1) && ftx.buffers == old(ftx.buffers)[n..]
    {
      hide Extract, SameQueue, SameOp, FileTransfer.Is;
      RecordIs(ftx, i);
      TakeOff(ftx, n, view.transfers[i], t1);
      assert Owned();
      view := SetFtx(view, i, t1);
      assert FilesTied();
    }

    /** RemHead and FreeVec. */
    method DoBufferFinished(ftx: FileTransfer, ghost i: nat)
      requires Valid() && i < |transfers| == |view.transfers| && ftx == transfers[i] && view.transfers[i].buffers != []
      modifies this`local, this`view, port, ftx`buffers
      ensures Valid() && i < |old(view).transfers|
      ensures view == Engine.DoBufferFinished(old(view), i)
    {
      hide Valid, PtrOk, HasInternal;
      RecordIs(ftx, i);
      SetLocal(ftx, Some(i));
      RecordIs(ftx, i);
      ghost var t := view.transfers[i];
      DropBuffers(ftx, i, 1, t.(buffers := t.buffers[1..]));
      ghost var v := SendNextBuffer(i);
      SendInternalPacket(SendNextBuffer(ftx), v);
    }

    /** RemHead and FreeVec until the list is empty. */
    method FreeBuffers(ftx: FileTransfer, ghost i: nat)
      requires Valid() && i < |transfers| == |view.transfers| && ftx == transfers[i]
      modifies this`view, ftx`buffers
      ensures Valid() && i < |old(view).transfers|
      ensures var t := old(view).transfers[i];
              view == SetFtx(old(view), i, t.(buffers := [], dropped := t.dropped + Unacked(t.buffers)))
    {
      hide Valid, PtrOk, Unacked, SetFtx;
      ghost var h0, t0, n := view, view.transfers[i], 0;
      RecordIs(ftx, i);
      SetSame(h0, i);
      assert t0.buffers[0..] == t0.buffers;
      while ftx.buffers != []
        invariant Valid() && n + |ftx.buffers| == |t0.buffers|
        invariant view == SetFtx(h0, i, t0.(buffers := t0.buffers[n..]))
        decreases |ftx.buffers|
        modifies ftx`buffers, this`view
      {
        SetAgain(h0, i, t0.(buffers := t0.buffers[n..]), t0.(buffers := t0.buffers[n + 1..]));
        assert t0.buffers[n..][1..] == t0.buffers[n + 1..];
        DropBuffers(ftx, i, 1, t0.(buffers := t0.buffers[n + 1..]));
        n := n + 1;
      }
      SetAgain(h0, i, t0.(buffers := t0.buffers[n..]), t0.(buffers := [], dropped := t0.dropped + Unacked(t0.buffers)));
      DropBuffers(ftx, i, 0, t0.(buffers := [], dropped := t0.dropped + Unacked(t0.buffers)));
    }

    /** ACTION_FILE_FINISHED and ACTION_FILE_FAILED. */
    method DoFileDone(ftx: FileTransfer, ghost i: nat)
      requires Valid() && i < |transfers| == |view.transfers| && ftx == transfers[i]
      modifies this`local, this`view, port, ftx`buffers
      ensures Valid() && i < |old(view).transfers|
      ensures view == Engine.DoFileDone(old(view), i)
    {
      hide Valid, PtrOk, HasInternal, Unacked;
      FreeBuffers(ftx, i);
      SetLocal(ftx, Some(i));
      ghost var v := SendNextFile;
      SendInternalPacket(SendNextFile, v);
    }

    // -------------------------------------------------------------------------------------
    // The completions of the two requests
    // -------------------------------------------------------------------------------------

    method StopTimer()
      requires Valid()
      modifies net, port, this`view
      ensures Valid() && view == Engine.StopTimer(old(view)) && net.grants == old(net.grants)
    {
      hide Extract, SameQueue, FileTransfer.Is, Without, PtrOk;
      SameWithout(port.queue, view.port, transfers, Kind.Timer);
      net.StopTimer();
      view := Engine.StopTimer(view);
    }

    /** The status is fetched, and an error reported; the code goes on in either case. */
    method TakeStatus(ftx: FileTransfer, ghost i: nat)
      requires Valid() && i < |transfers| == |view.transfers| && ftx == transfers[i]
      modifies net, this`view, this`busy, this`running, port, ftx`state, ftx`blknum, ftx`error
      ensures Valid() && i < |old(view).transfers| && view == Engine.TakeStatus(old(view), i)
      ensures HasData(old(view).serial) ==> Brings(net.incoming, old(view).serial.reply)
      ensures net.grants == old(net.grants)
    {
      hide Valid, PtrOk, Engine.Fail, Readable, Extract;
      var status := FetchStatus();
      if status == -1 {
        Stop();
      } else if status > 0 {
        Fail(ftx, i, status);
      }
    }

    /** netio_get_status. */
    method FetchStatus() returns (status: int)
      requires Valid()
      modifies net, this`view
      ensures Valid() && status == if old(view).serial.Replied? then old(view).serial.status else -1
      ensures view == if status == -1 then old(view) else old(view).(serial := Idle)
      ensures HasData(old(view).serial) ==> Brings(net.incoming, old(view).serial.reply)
      ensures net.grants == old(net.grants)
    {
      hide Extract, SameQueue, FileTransfer.Is, PtrOk, Readable, SameOp;
      status := net.GetStatus();
      if status != -1 {
        ghost var before := view;
        view := view.(serial := Idle);
        StillPoints(before, view);
      }
    }

    /** recv_tftp_packet. */
    method BeginRead() returns (ok: bool)
      requires Valid()
      modifies net, this`view
      ensures Valid() && ok == Granted(old(net.grants), 0)
      ensures view == if ok then StartIo(old(view), OpRead) else old(view)
      ensures !ok ==> net.errno == ERROR_NO_FREE_STORE
    {
      hide Extract, SameQueue, FileTransfer.Is, PtrOk, Readable, Granted;
      ok := net.RecvTftpPacket();
      if ok {
        ghost var before := view;
        view := StartIo(view, OpRead);
        StillPoints(before, view);
      }
    }

    /** Reading the answer of the server is started. */
    method StartRead(ftx: FileTransfer, ghost i: nat)
      requires Valid() && i < |transfers| == |view.transfers| && ftx == transfers[i]
      modifies net, this`view, this`busy, this`ioType, port, ftx`state, ftx`blknum, ftx`error
      ensures Valid() && i < |old(view).transfers|
      ensures view == Engine.StartRead(old(view), i, Granted(old(net.grants), 0))
    {
      hide Valid, PtrOk, Engine.Fail, Granted;
      SetType(ReadReturn);
      var ok := BeginRead();
      if !ok {
        Fail(ftx, i, net.errno);
      }
    }

    method DoWriteReturn(ftx: FileTransfer, ghost i: nat)
      requires Valid() && i < |transfers| == |view.transfers| && ftx == transfers[i]
      modifies net, this`view, this`busy, this`running, this`ioType, port, ftx`state, ftx`blknum, ftx`error
      ensures Valid() && i < |old(view).transfers|
      ensures view == Engine.DoWriteReturn(old(view), i, Granted(old(net.grants), 0))
    {
      hide Valid, Engine.TakeStatus, Engine.StartRead, PtrOk;
      RecordIs(ftx, i);
      StopTimer();
      TakeStatus(ftx, i);
      RecordIs(ftx, i);
      StartRead(ftx, i);
    }

    /** extract_tftp_packet. */
    method CallExtract(ghost x: Extracted) returns (ok: bool)
      requires Valid() && Brings(net.incoming, x)
      modifies net, tftppkt, tftppkt.addr, this`view
      ensures Valid() && net.errno == ExtractFailure(x, old(net.grants)) && (ok <==> net.errno == 0)
      ensures ok ==> x.Payload? && view == old(view).(tftppkt := Overlay(old(view).tftppkt, x.bytes))
      ensures !ok ==> view == old(view)
    {
      hide Extract, SameQueue, PtrOk, Readable, SameOp, Overlay, ExtractFailure, FileTransfer.Is;
      ok := net.ExtractTftpPacket(tftppkt);
      assert FilesTied();
      if ok {
        ghost var before := view;
        OverlaySplit(before.tftppkt, x.bytes, tftppkt.addr[..]);
        view := view.(tftppkt := Overlay(before.tftppkt, x.bytes));
        StillPoints(before, view);
      }
    }

    /** The packet is taken, or the file fails. */
    method TakePacket(ftx: FileTransfer, ghost i: nat, ghost x: Extracted)
      requires Valid() && i < |transfers| == |view.transfers| && ftx == transfers[i] && Brings(net.incoming, x)
      modifies net, tftppkt, tftppkt.addr, this`view, this`busy, port, ftx`state, ftx`blknum, ftx`error
      ensures Valid() && i < |old(view).transfers|
      ensures view == Engine.TakePacket(old(view), i,
                        if ReadGranted(old(net.grants), x) then x else Rejected(ERROR_NO_FREE_STORE))
    {
      hide Valid, Brings, PtrOk, Engine.Fail, Overlay;
      var ok := CallExtract(x);
      if !ok {
        Fail(ftx, i, net.errno);
      }
    }

    /** do_read_return up to the opcode switch. */
    method ReadPacket(ftx: FileTransfer, ghost i: nat)
      requires Valid() && i < |transfers| == |view.transfers| && ftx == transfers[i] && HasData(view.serial)
      modifies net, tftppkt, tftppkt.addr, this`view, this`busy, this`running, port, ftx`state, ftx`blknum, ftx`error
      ensures Valid() && i < |old(view).transfers|
      ensures view == Engine.TakePacket(Engine.TakeStatus(Engine.StopTimer(old(view)), i), i,
                        if ReadGranted(old(net.grants), old(view).serial.reply) then old(view).serial.reply
                        else Rejected(ERROR_NO_FREE_STORE))
    {
      hide Valid, Engine.TakeStatus, Engine.TakePacket, PtrOk;
      StopTimer();
      ghost var x := view.serial.reply;
      RecordIs(ftx, i);
      TakeStatus(ftx, i);
      RecordIs(ftx, i);
      TakePacket(ftx, i, x);
    }

    /** The state of the file is looked at. */
    method DoAck(ftx: FileTransfer, ghost i: nat, blknum: word)
      requires Valid() && i < |transfers| == |view.transfers| && ftx == transfers[i]
      requires Engine.DoAck(view, i, blknum).trapped ==> view.trapped
      requires !view.trapped
      modifies this`view, this`busy, this`running, port, ftx`state, ftx`blknum, ftx`error, ftx.buffers
      ensures Valid() && i < |old(view).transfers|
      ensures view == Engine.DoAck(old(view), i, blknum)
    {
      hide Valid, PtrOk, HasInternal, Engine.Fail, Chunk, InBounds, DoAcked;
      RecordIs(ftx, i);
      if ftx.state == WrqSent {
        ghost var v := SendNextBuffer(i);
        SendInternalPacket(SendNextBuffer(ftx), v);
      } else if ftx.state == DataSent {
        if blknum == ftx.blknum {
          ChunkAcked(ftx, i);
        } else {
          Fail(ftx, i, ERROR_TFTP_WRONG_BLOCK_NUM);
        }
      } else {
        Stop();
      }
    }

    method ChunkAcked(ftx: FileTransfer, ghost i: nat)
      requires Valid() && i < |transfers| == |view.transfers| && ftx == transfers[i]
      requires !DoAcked(view, i).trapped
      modifies this`view, port, ftx.buffers
      ensures Valid() && i < |old(view).transfers|
      ensures view == DoAcked(old(view), i)
    {
      hide Valid, PtrOk, HasInternal, Chunk, InBounds;
      RecordIs(ftx, i);
      ghost var t := view.transfers[i];
      var fbuf := ftx.buffers[0];
      assert fbuf.Is(t.buffers[0]);
      SetBuffer(ftx, i, fbuf.curpos, fbuf.left - TFTP_MAX_DATA_SIZE, t.acked + [Chunk(t.buffers[0])]);
      if fbuf.left > 0 {
        ghost var v := ContinueBuffer(i);
        SendInternalPacket(ContinueBuffer(ftx), v);
      } else {
        ghost var v := BufferFinished(i);
        SendInternalPacket(BufferFinished(ftx), v);
      }
    }

    method Stop()
      requires Valid()
      modifies this`busy, this`running, this`view
      ensures Valid() && view == old(view).(busy := false, running := false)
    {
      hide Extract, SameQueue, FileTransfer.Is;
      busy, running := false, false;
      view := view.(busy := false, running := false);
    }

    /** The opcode switch. */
    method DoReply(ftx: FileTransfer, ghost i: nat)
      requires Valid() && i < |transfers| == |view.transfers| && ftx == transfers[i] && |view.tftppkt| >= 4
      requires !Engine.DoReply(view, i).trapped && !view.trapped
      modifies this`view, this`busy, this`running, port, ftx`state, ftx`blknum, ftx`error, ftx.buffers
      ensures Valid() && i < |old(view).transfers| && |old(view).tftppkt| >= 4
      ensures view == Engine.DoReply(old(view), i)
    {
      hide Valid, PtrOk, Engine.Fail, Engine.DoAck, GetOpcode, GetBlknum;
      PacketIs();
      var opcode := ReadOpcode(tftppkt);
      if opcode == OP_ACK {
        var blknum := ReadBlknum(tftppkt);
        DoAck(ftx, i, blknum);
      } else if opcode == OP_ERROR {
        Fail(ftx, i, ERROR_TFTP_GENERIC_ERROR);
      } else {
        Fail(ftx, i, ERROR_TFTP_UNKNOWN_OPCODE);
      }
    }

    lemma PacketIs()
      requires Valid()
      ensures tftppkt.Valid() && tftppkt.addr[..] == view.tftppkt && PtrOk(view)
    {
    }

    method DoReadReturn(ftx: FileTransfer, ghost i: nat)
      requires Valid() && i < |transfers| == |view.transfers| && ftx == transfers[i] && HasData(view.serial)
      requires !Engine.DoReadReturn(view, i, ReadGranted(net.grants, view.serial.reply)).trapped && !view.trapped
      modifies net, tftppkt, tftppkt.addr, this`view, this`busy, this`running, port
      modifies ftx`state, ftx`blknum, ftx`error, ftx.buffers
      ensures Valid() && i < |old(view).transfers|
      ensures view == Engine.DoReadReturn(old(view), i, ReadGranted(old(net.grants), old(view).serial.reply))
    {
      hide Valid, PtrOk, Engine.TakeStatus, Engine.TakePacket, Engine.DoReply;
      RecordIs(ftx, i);
      PacketIs();
      ghost var x := view.serial.reply;
      OpenedUntrapped(view, i, if ReadGranted(net.grants, x) then x else Rejected(ERROR_NO_FREE_STORE));
      ReadPacket(ftx, i);
      RecordIs(ftx, i);
      DoReply(ftx, i);
    }

    method AbortIo()
      requires Valid()
      modifies net, port, this`view
      ensures Valid() && view == Engine.Abort(old(view)) && net.grants == old(net.grants)
    {
      hide Extract, SameQueue, FileTransfer.Is, Without, PtrOk;
      SameWithout(port.queue, view.port, transfers, Kind.Serial);
      net.Abort();
      view := Engine.Abort(view);
    }

    /** The timer request, whose reply has been received, is unused again. */
    method TimerAnswered()
      requires Valid()
      modifies net`timer, this`view
      ensures Valid()
      ensures var h := old(view); view == h.(timer := Stopped, stranded := h.stranded || (h.busy && h.local != h.ioArg))
    {
      hide Extract, SameQueue, FileTransfer.Is;
      net.timer := Stopped;
      ghost var h := view;
      view := h.(timer := Stopped, stranded := h.stranded || (h.busy && h.local != h.ioArg));
    }

    /** Whatever transfer the local variable of the main loop names fails. */
    method DoTimerExpired()
      requires Valid() && local != null
      modifies net, this`view, this`busy, port, local`state, local`blknum, local`error
      ensures Valid() && PtrOk(old(view)) && view == Engine.DoTimerExpired(old(view))
    {
      hide Valid, Without, PtrOk, Engine.Fail;
      LocalIs();
      AbortIo();
      TimerAnswered();
      LocalIs();
      ghost var i := view.local.value;
      Fail(local, i, ERROR_IO_TIMEOUT);
    }

    lemma LocalIs()
      requires Valid()
      ensures PtrOk(view) && SameRef(local, view.local, transfers)
    {
    }

    // -------------------------------------------------------------------------------------
    // The packets of clients
    // -------------------------------------------------------------------------------------

    method Alloc() returns (ok: bool)
      requires Valid()
      modifies net`grants
      ensures Valid() && ok == Granted(old(net.grants), 0) && net.grants == Later(old(net.grants))
    {
      hide Extract, SameQueue, FileTransfer.Is, PtrOk, SameOp;
      ok := net.Alloc();
    }

    method DoFindOutput(path: CString)
      requires Valid()
      modifies this`transfers, this`view, this`Repr, net`grants
      ensures Valid() && fresh(Repr - old(Repr))
      ensures view == Engine.DoFindOutput(old(view), path, Granted(old(net.grants), 0))
    {
      hide Valid, NewFtx, Granted;
      var ok := Alloc();
      if ok {
        var ftx := NewTransfer(path);
        AddTransfer(ftx, path);
      }
    }

    method NewTransfer(path: CString) returns (ftx: FileTransfer)
      ensures fresh(ftx) && ftx.Is(NewFtx(path)) && ftx.buffers == []
    {
      var name := SkipPrefix(path);
      ftx := new FileTransfer(name[..Min(|name|, MAX_PATH_LEN - 1)]);
    }

    /** The new file becomes the last of the list. */
    method AddTransfer(ftx: FileTransfer, ghost path: CString)
      requires Valid() && ftx.Is(NewFtx(path)) && ftx.buffers == [] && ftx !in Repr
      modifies this`transfers, this`view, this`Repr
      ensures Valid() && Repr == old(Repr) + {ftx} && view == Engine.DoFindOutput(old(view), path, true)
    {
      hide Extract, SameQueue, FileTransfer.Is, NewFtx, SameOp;
      SameQueueMore(port.queue, view.port, transfers, ftx);
      transfers := transfers + [ftx];
      Repr := Repr + {ftx};
      assert Owned();
      view := Engine.DoFindOutput(view, path, true);
      assert FilesTied();
    }

    method DoWrite(ftx: FileTransfer, ghost i: nat, bytes: seq<byte>)
      requires Valid() && i < |transfers| == |view.transfers| && ftx == transfers[i]
      modifies this`view, this`Repr, port, net`grants, ftx
      ensures Valid() && fresh(Repr - old(Repr)) && i < |old(view).transfers|
      ensures view == Engine.DoWrite(old(view), i, bytes, Granted(old(net.grants), 0) && Granted(old(net.grants), 1))
    {
      hide Valid, PtrOk, HasInternal;
      RecordIs(ftx, i);
      var ok := Alloc();
      if ok {
        ok := Alloc();
      }
      if ok {
        var fbuf := new FileBuffer(bytes, ftx);
        AddTail(ftx, i, fbuf, bytes);
      } else {
        SetRecord(ftx, i, FileState.Error, ftx.blknum, ERROR_NO_FREE_STORE);
        ghost var v := FileFailed(i);
        SendInternalPacket(FileFailed(ftx), v);
      }
    }

    method DoEnd(ftx: FileTransfer, ghost i: nat)
      requires Valid() && i < |transfers| == |view.transfers| && ftx == transfers[i]
      modifies this`view, this`local, port, ftx`state, ftx`blknum, ftx`error
      ensures Valid() && i < |old(view).transfers| && view == Engine.DoEnd(old(view), i)
    {
      hide Valid, PtrOk, HasInternal;
      RecordIs(ftx, i);
      SetLocal(ftx, Some(i));
      SetRecord(ftx, i, Ready, ftx.blknum, ftx.error);
      ghost var v := SendNextFile;
      SendInternalPacket(SendNextFile, v);
    }

    /** The new buffer becomes the last of the list. */
    method AddTail(ftx: FileTransfer, ghost i: nat, fbuf: FileBuffer, ghost bytes: seq<byte>)
      requires Valid() && i < |transfers| == |view.transfers| && ftx == transfers[i]
      requires fbuf.Is(FreshBuf(bytes)) && fbuf.owner == ftx && fbuf !in Repr && fbuf.bytes !in Repr
      modifies this`view, this`Repr, ftx`buffers
      ensures Valid() && Repr == old(Repr) + {fbuf, fbuf.bytes}
      ensures i < |old(view).transfers| && view == Engine.DoWrite(old(view), i, bytes, true)
    {
      hide Extract, SameQueue, SameOp;
      RecordIs(ftx, i);
      ghost var t := view.transfers[i];
      ftx.buffers := ftx.buffers + [fbuf];
      Repr := Repr + {fbuf, fbuf.bytes};
      assert Owned();
      view := Engine.DoWrite(view, i, bytes, true);
      assert ftx.Is(view.transfers[i]);
      assert FilesTied();
    }

    // -------------------------------------------------------------------------------------
    // The main loop
    // -------------------------------------------------------------------------------------

    method GetMsg() returns (m: Msg<FileTransfer>, ghost v: Msg<nat>)
      requires Valid() && port.queue != []
      modifies port, this`view
      ensures Valid() && PtrOk(old(view)) && old(view).port != [] && v == old(view).port[0]
      ensures Points(v, |transfers|) && |transfers| == |view.transfers| && m == Real(v, transfers)
      ensures view == Rest1(old(view))
    {
      hide Extract, FileTransfer.Is, SameOp;
      m, v := port.queue[0], view.port[0];
      port.queue := port.queue[1..];
      view := Rest1(view);
    }

    method OnClient(m: Msg<FileTransfer>, ghost v: Msg<nat>, ghost h: H)
      requires Valid() && TakenOff(h, v, view) && Points(v, |transfers|) && m == Real(v, transfers)
      requires |transfers| == |view.transfers| && KindOf(m) == Client
      modifies Repr
      ensures Valid() && fresh(Repr - old(Repr)) && view == Handle(h, NetFor(h, old(net.grants)))
    {
      hide Valid, PtrOk, HasInternal, Engine.DoFindOutput, Engine.DoWrite, Engine.DoEnd, Engine.Abort;
      InRepr();
      match m
      case FindOutput(path) => DoFindOutput(path);
      case Write(ftx, bytes) =>
        FilesInRepr(v.ftx);
        DoWrite(ftx, v.ftx, bytes);
      case End(ftx) =>
        FilesInRepr(v.ftx);
        DoEnd(ftx, v.ftx);
      case Die =>
        AbortIo();
        ShutDown();
      case Other =>
    }

    method OnInternal(m: Msg<FileTransfer>, ghost v: Msg<nat>, ghost h: H)
      requires Valid() && TakenOff(h, v, view) && Points(v, |transfers|) && m == Real(v, transfers)
      requires |transfers| == |view.transfers| && Internal(m) && !h.trapped && !Handle(h, NetFor(h, net.grants)).trapped
      modifies Repr
      ensures Valid() && Repr == old(Repr) && view == Handle(h, NetFor(h, old(net.grants)))
    {
      hide Valid, PtrOk, HasInternal, Engine.DoSendNextFile, Engine.DoSendNextBuffer, Engine.DoContinueBuffer;
      hide Engine.DoBufferFinished, Engine.DoFileDone, SendNet, InBounds, NextReady;
      InRepr();
      NetIs(h, net.grants);
      if m == SendNextFile {
        DoSendNextFile();
      } else {
        Untrapped(h, NetFor(h, net.grants));
        FilesInRepr(v.ftx);
        match m
        case SendNextBuffer(ftx) => DoSendNextBuffer(ftx, v.ftx);
        case ContinueBuffer(ftx) => DoContinueBuffer(ftx, v.ftx);
        case BufferFinished(ftx) => DoBufferFinished(ftx, v.ftx);
        case FileFinished(ftx) => DoFileDone(ftx, v.ftx);
        case FileFailed(ftx) => DoFileDone(ftx, v.ftx);
      }
    }

    method OnCompletion(m: Msg<FileTransfer>, ghost v: Msg<nat>, ghost h: H)
      requires Valid() && TakenOff(h, v, view) && Points(v, |transfers|) && m == Real(v, transfers)
      requires |transfers| == |view.transfers| && (m == SerialReply || m == TimerReply)
      requires !h.trapped && !Handle(h, NetFor(h, net.grants)).trapped
      modifies Repr
      ensures Valid() && Repr == old(Repr) && view == Handle(h, NetFor(h, old(net.grants)))
    {
      hide Valid, PtrOk, Engine.DoWriteReturn, Engine.DoReadReturn, Engine.DoTimerExpired;
      InRepr();
      LocalIs();
      ReplyUntrapped(h, NetFor(h, net.grants));
      if m == TimerReply {
        FilesInRepr(view.local.value);
        DoTimerExpired();
      } else {
        ghost var i := view.ioArg.value;
        FilesInRepr(i);
        if ioType == WriteReturn {
          DoWriteReturn(ioArg, i);
        } else {
          DoReadReturn(ioArg, i);
        }
      }
    }

    /** One pass of the main loop, in which allocations succeed and fail as given. */
    method HandleMessage(allocations: seq<bool>)
      requires Valid() && port.queue != [] && PtrOk(view) && view.port != [] && !view.trapped
      requires !Handle(view, NetFor(view, allocations)).trapped
      modifies Repr
      ensures Valid() && fresh(Repr - old(Repr))
      ensures PtrOk(old(view)) && old(view).port != []
      ensures view == Handle(old(view), NetFor(old(view), allocations))
    {
      hide Valid, PtrOk, Handle, NetFor;
      InRepr();
      ghost var h := view;
      SetGrants(allocations);
      var m, v := GetMsg();
      InRepr();
      if KindOf(m) == Client {
        OnClient(m, v, h);
      } else if Internal(m) {
        OnInternal(m, v, h);
      } else {
        OnCompletion(m, v, h);
      }
    }

    /** The main loop, from one wait to the next: messages are handled until the port is empty or the
        handler is told to stop. The lists say how the allocations of each pass come out; where they end,
        the next pass has not been made yet. */
    method MainLoop(allocations: seq<seq<bool>>)
      requires Valid() && PtrOk(view) && !view.trapped && Safe(view, allocations)
      modifies Repr
      ensures Valid() && fresh(Repr - old(Repr)) && PtrOk(old(view)) && view == Looped(old(view), allocations)
    {
      hide Valid, PtrOk, Handle, NetFor;
      ghost var h := view;
      var k := 0;
      assert allocations[0..] == allocations;
      InRepr();
      while running && port.queue != [] && k < |allocations|
        invariant k <= |allocations| && Valid() && PtrOk(view) && !view.trapped && fresh(Repr - old(Repr))
        invariant Safe(view, allocations[k..]) && Looped(view, allocations[k..]) == Looped(h, allocations)
        invariant running == view.running && (port.queue == [] <==> view.port == [])
        decreases |allocations| - k
      {
        assert allocations[k..][1..] == allocations[k + 1..];
        HandleMessage(allocations[k]);
        InRepr();
        k := k + 1;
      }
    }

    // -------------------------------------------------------------------------------------
    // What happens to the handler from outside
    // -------------------------------------------------------------------------------------

    /** A client puts a packet into the port. */
    method Arrive(m: Msg<FileTransfer>, ghost v: Msg<nat>)
      requires Valid() && PtrOk(view) && Possible(view, ClientSends(v)) && Points(v, |transfers|)
      requires m == Real(v, transfers)
      modifies port, this`view
      ensures Valid() && PtrOk(old(view)) && Possible(old(view), ClientSends(v))
      ensures view == Apply(old(view), ClientSends(v))
    {
      hide Extract, FileTransfer.Is, SameOp;
      port.queue := port.queue + [m];
      view := Apply(view, ClientSends(v));
    }

    /** The serial device has written the frame. */
    method WriteCompletes(status: nat)
      requires Valid() && PtrOk(view) && Possible(view, WriteDone(status))
      modifies net, port, this`view
      ensures Valid() && PtrOk(old(view)) && Possible(old(view), WriteDone(status))
      ensures view == Apply(old(view), WriteDone(status))
    {
      hide Extract, FileTransfer.Is, FrameOf, TftpBytes;
      net.serial := Replied(net.serial.op, status, Nothing);
      port.queue := port.queue + [SerialReply];
      view := Apply(view, WriteDone(status));
    }

    /** The serial device has read something: actual bytes are at addr. */
    method ReadCompletes(status: nat, addr: array<byte>, actual: nat)
      requires Valid() && PtrOk(view) && addr !in Repr && Readable(addr[..], actual)
      requires Possible(view, ReadDone(status, Extract(addr[..], actual)))
      modifies net, port, this`view, this`Repr
      ensures Valid() && PtrOk(old(view)) && Repr == old(Repr) + {addr}
      ensures Possible(old(view), ReadDone(status, Extract(addr[..], actual)))
      ensures view == Apply(old(view), ReadDone(status, Extract(addr[..], actual)))
    {
      hide Extract, FileTransfer.Is, FrameOf, TftpBytes, Readable;
      ghost var x := Extract(addr[..], actual);
      Repr := Repr + {addr};
      net.serial := Replied(OpRead, status, Incoming.Incoming(addr, actual));
      port.queue := port.queue + [SerialReply];
      view := Apply(view, ReadDone(status, x));
    }

    /** Ten seconds have gone by. */
    method Expire()
      requires Valid() && PtrOk(view) && Possible(view, TimerFires)
      modifies net, port, this`view
      ensures Valid() && PtrOk(old(view)) && Possible(old(view), TimerFires)
      ensures view == Apply(old(view), TimerFires)
    {
      hide Extract, FileTransfer.Is, SameOp;
      net.timer := Fired;
      port.queue := port.queue + [TimerReply];
      view := Apply(view, TimerFires);
    }

    method SetGrants(allocations: seq<bool>)
      requires Valid()
      modifies net`grants
      ensures Valid() && net.grants == allocations
    {
      hide Extract, SameQueue, FileTransfer.Is, PtrOk, SameOp;
      net.grants := allocations;
    }

    method ShutDown()
      requires Valid()
      modifies this`running, this`view
      ensures Valid() && view == old(view).(running := false)
    {
      hide Extract, SameQueue, FileTransfer.Is;
      running := false;
      view := view.(running := false);
    }

    lemma InRepr()
      requires Valid()
      ensures running == view.running && (port.queue == [] <==> view.port == [])
      ensures ioType == view.ioType && SameRef(ioArg, view.ioArg, transfers) && SameRef(local, view.local, transfers)
      ensures {this, port, net, tftppkt, tftppkt.addr} <= Repr && net.port == port && PtrOk(view)
    {
    }

    lemma FilesInRepr(i: nat)
      requires Valid() && i < |transfers|
      ensures transfers[i] in Repr && forall b :: b in transfers[i].buffers ==> b in Repr
    {
    }
  }

  /** The state after passes with these allocations, as long as there are messages. */
  ghost function Looped(h: H, allocations: seq<seq<bool>>): H
    requires PtrOk(h)
    decreases |allocations|
  {
    if allocations == [] || !h.running || h.port == [] then h
    else Looped(Handle(h, NetFor(h, allocations[0])), allocations[1..])
  }

  /** None of these passes follows a bad pointer. */
  ghost predicate Safe(h: H, allocations: seq<seq<bool>>)
    requires PtrOk(h)
    decreases |allocations|
  {
    allocations == [] || !h.running || h.port == []
    || (!Handle(h, NetFor(h, allocations[0])).trapped && Safe(Handle(h, NetFor(h, allocations[0])), allocations[1..]))
  }

  /** v has been taken off the port of h, which leaves r. */
  predicate TakenOff(h: H, v: Msg<nat>, r: H) {
    PtrOk(h) && h.port != [] && v == h.port[0] && r == Rest1(h)
  }

  /** What a pass demands that traps nobody. */
  lemma Untrapped(h: H, net: Net)
    requires PtrOk(h) && h.port != [] && Internal(h.port[0]) && !h.trapped && !Handle(h, net).trapped
    requires h.port[0].HasFtx() && h.port[0].ftx < |h.transfers|
    ensures var t := h.transfers[h.port[0].ftx];
            match h.port[0]
            case SendNextBuffer(_) => t.buffers != [] ==> InBounds(t.buffers[0])
            case ContinueBuffer(_) => OutgoingChunk(t, TFTP_MAX_DATA_SIZE).Some?
            case BufferFinished(_) => t.buffers != []
            case _ => true
  {
    hide PtrOk, InBounds, OutgoingChunk, Engine.DoSendNextBuffer, Engine.DoContinueBuffer, Engine.DoBufferFinished;
    hide Engine.DoFileDone;
    var i := h.port[0].ftx;
    var t := h.transfers[i];
    ContinueTraps(Rest1(h), i, net);
    if t.buffers == [] {
      ReleaseTraps(Rest1(h), i);
    } else if !InBounds(t.buffers[0]) {
      NextTraps(Rest1(h), i, net);
    }
  }

  lemma NextTraps(h: H, i: nat, net: Net)
    requires i < |h.transfers| && h.transfers[i].buffers != [] && !InBounds(h.transfers[i].buffers[0])
    ensures Engine.DoSendNextBuffer(h, i, net).trapped
  {
    hide SendChunk, InBounds;
    ChunkTraps(h.(local := Some(i)), i, net);
  }

  lemma ContinueTraps(h: H, i: nat, net: Net)
    requires i < |h.transfers|
    ensures OutgoingChunk(h.transfers[i], TFTP_MAX_DATA_SIZE) == None ==> Engine.DoContinueBuffer(h, i, net).trapped
  {
    hide SendChunk, InBounds, Chunk;
    var t := h.transfers[i];
    if t.buffers != [] {
      ChunkTraps(SetFtx(h.(local := Some(i)), i, t.(buffers := [NextCursor(t.buffers[0])] + t.buffers[1..])), i, net);
    }
  }

  lemma ReleaseTraps(h: H, i: nat)
    requires i < |h.transfers| && h.transfers[i].buffers == []
    ensures Engine.DoBufferFinished(h, i).trapped
  {
  }

  function NextCursor(b: FileBuf): FileBuf {
    b.(curpos := b.curpos + TFTP_MAX_DATA_SIZE)
  }

  lemma ChunkTraps(h: H, i: nat, net: Net)
    requires i < |h.transfers| && h.transfers[i].buffers != []
    ensures !InBounds(h.transfers[i].buffers[0]) ==> SendChunk(h, i, net).trapped
  {
    hide InBounds, Send, Chunk;
  }

  lemma ReplyUntrapped(h: H, net: Net)
    requires PtrOk(h) && h.port != [] && !h.trapped && !Handle(h, net).trapped
    ensures h.port[0] == TimerReply ==> h.local.Some?
    ensures h.port[0] == SerialReply ==>
              h.ioArg.Some? && h.ioType != NoIo && (h.ioType == ReadReturn ==> HasData(h.serial))
  {
    hide HasInternal, PtrOk;
  }

  /** Only what the sender of the message makes of the outside conditions matters. */
  lemma NetIs(h: H, grants: seq<bool>)
    requires PtrOk(h) && h.port != [] && Internal(h.port[0])
    ensures var m, r, n := h.port[0], Rest1(h), NetFor(h, grants);
            && Points(m, |h.transfers|)
            && Handle(h, n) == match m
                               case SendNextFile => Engine.DoSendNextFile(r, PickNet(r, grants))
                               case SendNextBuffer(i) =>
                                 Engine.DoSendNextBuffer(r, i, ChunkNet(r.transfers[i], 0, grants))
                               case ContinueBuffer(i) =>
                                 Engine.DoContinueBuffer(r, i, ChunkNet(r.transfers[i], TFTP_MAX_DATA_SIZE, grants))
                               case BufferFinished(i) => Engine.DoBufferFinished(r, i)
                               case FileFinished(i) => Engine.DoFileDone(r, i)
                               case FileFailed(i) => Engine.DoFileDone(r, i)
  {
    hide HasInternal, Send, SendNet, Chunk;
    assert Points(h.port[0], |h.transfers|);
  }

  lemma OpenedUntrapped(h: H, i: nat, x: Extracted)
    requires PtrOk(h) && i < |h.transfers| && h.serial.Replied?
    ensures var r := Engine.TakePacket(Engine.TakeStatus(Engine.StopTimer(h), i), i, x);
            r.trapped == h.trapped && |r.tftppkt| >= 4
  {
    hide Engine.Fail, Without, Overlay;
    var h1 := Engine.StopTimer(h);
    FailUntrapped(h1.(serial := Idle), i, h.serial.status);
    if x.Rejected? {
      FailUntrapped(Engine.TakeStatus(h1, i), i, x.errno);
    }
  }

  lemma FailUntrapped(h: H, i: nat, error: nat)
    requires i < |h.transfers|
    ensures var r := Engine.Fail(h, i, error);
            r.trapped == h.trapped && r.tftppkt == h.tftppkt && |r.transfers| == |h.transfers|
  {
    hide HasInternal;
  }

  lemma OverlaySplit(before: seq<byte>, bytes: seq<byte>, after: seq<byte>)
    requires |bytes| <= |before| == |after| && after[..|bytes|] == bytes && after[|bytes|..] == before[|bytes|..]
    ensures after == Overlay(before, bytes)
  {
  }

  lemma SetSame(h: H, i: nat)
    requires i < |h.transfers|
    ensures SetFtx(h, i, h.transfers[i]) == h
  {
    assert h.transfers[i := h.transfers[i]] == h.transfers;
  }

  /** Only the last of two changes of a record is left; the record in between is the first. */
  lemma SetAgain(h: H, i: nat, a: Ftx, b: Ftx)
    requires i < |h.transfers|
    ensures var r := SetFtx(h, i, a);
            i < |r.transfers| == |h.transfers| && r.transfers[i] == a && SetFtx(r, i, b) == SetFtx(h, i, b)
  {
    assert h.transfers[i := a][i := b] == h.transfers[i := b];
  }

  lemma StillPoints(a: H, b: H)
    requires PtrOk(a) && b.port == a.port && b.transfers == a.transfers && |b.tftppkt| >= |a.tftppkt|
    requires b.ioArg == a.ioArg && b.local == a.local
    ensures PtrOk(b)
  {
  }

  /** Whether the memory for taking a packet apart is there, as far as it is asked for. */
  predicate ReadGranted(grants: seq<bool>, x: Extracted) {
    Granted(grants, 0) && (x.Payload? ==> Granted(grants, 1) && Granted(grants, 2))
  }

  /** The outcome of the request DoSendNextFile sends, if it sends one. */
  function PickNet(h: H, grants: seq<bool>): Net {
    match NextReady(h.transfers, 0)
    case None => Net(false, false)
    case Some(i) => SendNet(grants, Wrq(h.transfers[i].name))
  }

  function ChunkNet(t: Ftx, advance: nat, grants: seq<bool>): Net {
    match OutgoingChunk(t, advance)
    case None => Net(false, false)
    case Some(p) => SendNet(grants, p)
  }
}

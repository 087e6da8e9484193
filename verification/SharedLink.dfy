/** What the invariant of orderly runs says in every reachable state: who owns the serial link, that no
    request or pointer is misused, how far block numbers go, and where the bytes of a file are. */
module SharedLink {
  import opened Bytes
  import opened Messages
  import opened Engine
  import opened Files
  import opened Ownership
  import opened Effects
  import opened Intake

  /** The handler is busy exactly when some transfer is in flight; that transfer is the only one and
      the one the I/O packet names. */
  predicate LinkOwned(h: H) {
    && (h.busy <==> exists i :: 0 <= i < |h.transfers| && Sent(h.transfers[i]))
    && (forall i :: 0 <= i < |h.transfers| && Sent(h.transfers[i]) ==> h.ioArg == Some(i))
  }

  lemma InvOwned(h: H, ph: Phase)
    requires Inv(h, ph) && !h.stranded
    ensures LinkOwned(h)
  {
    hide Signals, QueueOk, Payloads, Unacked, RestOk;
    if ph != Rest {
      XferSent(h.transfers[h.ioArg.value], ph);
    }
  }

  /** A timeout is handled while the local variable of the main loop names the active transfer. */
  predicate Timely(h: H, mv: Move) {
    mv.Step? && h.port != [] && h.port[0].TimerReply? ==> h.local == h.ioArg
  }

  predicate OrderlyTimely(h: H, mv: Move) {
    Orderly(h, mv) && Timely(h, mv)
  }

  lemma MoveStrands(h: H, mv: Move)
    requires PtrOk(h) && Possible(h, mv) && Timely(h, mv)
    ensures Apply(h, mv).stranded == h.stranded
  {
    hide PtrOk, Handle;
    if mv.Step? {
      if h.port[0] == TimerReply {
        TimelyTimeout(h, mv.net);
      } else {
        HandleStrands(h, mv.net);
      }
    }
  }

  lemma {:induction false} TimelyRun(h: H, moves: seq<Move>)
    requires PtrOk(h) && PossibleRun(h, moves) && Throughout(h, moves, OrderlyTimely)
    ensures Throughout(h, moves, Orderly) && After(h, moves).stranded == h.stranded
    decreases |moves|
  {
    hide PtrOk, Apply;
    if moves != [] {
      MoveStrands(h, moves[0]);
      TimelyRun(Apply(h, moves[0]), moves[1..]);
    }
  }

  /** Exclusive ownership of the link, in every reachable state of an orderly run whose timeouts are
      timely. */
  lemma LinkOwnership(h: H, moves: seq<Move>)
    requires Initial(h) && PossibleRun(h, moves) && Throughout(h, moves, OrderlyTimely) && After(h, moves).running
    ensures LinkOwned(After(h, moves))
  {
    hide After, Inv, Orderly, OrderlyTimely;
    TimelyRun(h, moves);
    InitInv(h);
    InvFine(h, Rest);
    var last := RunInv(h, Rest, moves);
    InvOwned(After(h, moves), last);
  }

  /** Neither request is ever sent again before its reply has been fetched, and no pointer that leads
      nowhere is followed: no chunk is taken from outside its buffer or from an empty list. */
  lemma NoHarm(h: H, moves: seq<Move>)
    requires Initial(h) && PossibleRun(h, moves) && Throughout(h, moves, Orderly)
    ensures !After(h, moves).clashed && !After(h, moves).trapped
  {
    hide After, Inv;
    InitInv(h);
    InvFine(h, Rest);
    var last := RunInv(h, Rest, moves);
  }

  /** What the first message needs, told without the history of the handler: a request it may send is unused,
      a reply it fetches is there, a pointer it follows leads somewhere, and a chunk it sends is inside its
      buffer. */
  predicate Harmless(h: H) {
    h.port != [] ==>
      match h.port[0]
      case SendNextFile => !h.busy ==> h.serial == Idle && h.timer == Stopped
      case SendNextBuffer(i) => Unused(h, i) && (h.transfers[i].buffers != [] ==> InBounds(h.transfers[i].buffers[0]))
      case ContinueBuffer(i) =>
        Unused(h, i) && h.transfers[i].buffers != [] && InBounds(Advanced(h.transfers[i]).buffers[0])
      case BufferFinished(i) => Unused(h, i) && h.transfers[i].buffers != []
      case SerialReply =>
        && h.ioArg.Some? && h.ioArg.value < |h.transfers| && h.ioType != NoIo && h.serial.Replied?
        && (h.serial.op.OpRead? <==> h.ioType == ReadReturn)
      case TimerReply => h.local.Some? && h.local.value < |h.transfers| && h.timer == Fired
      case _ => true
  }

  predicate Unused(h: H, i: nat) {
    i < |h.transfers| && h.ioArg == Some(i) && h.serial == Idle && h.timer == Stopped
  }

  lemma HeadHarmless(h: H, ph: Phase)
    requires PtrOk(h) && Inv(h, ph)
    ensures Harmless(h)
  {
    hide PtrOk, Inv, Up, InBounds;
    if h.port != [] {
      match KindOf(h.port[0])
      case Active => ActiveHarmless(h, ph);
      case Serial => TakeSerial(h, ph); SerialHarmless(h, ph);
      case Timer => TakeTimer(h, ph); TimerLocal(h, ph); TimerHarmless(h, ph);
      case _ => IdleHarmless(h, ph);
    }
  }

  lemma ActiveHarmless(h: H, ph: Phase)
    requires PtrOk(h) && h.port != [] && Inv(h, ph) && KindOf(h.port[0]) == Active
    ensures Harmless(h)
  {
    hide PtrOk, Inv, InBounds, OthersOk, QueueOk, Signals, XferOk, LocalOk;
    TakeToken(h, ph);
    var i := h.ioArg.value;
    var t := h.transfers[i];
    TokenUnused(h, ph);
    match ph
    case Next =>
      if t.buffers != [] {
        FirstChunkOk(t, 0);
      }
    case Cont => ContBuffers(t); NextChunkOk(t, 0);
    case BufDone => XferConserved(t, ph);
    case _ =>
  }

  lemma ContBuffers(t: Ftx)
    requires XferOk(t, Cont)
    ensures t.buffers != []
  {
  }

  lemma TokenUnused(h: H, ph: Phase)
    requires Inv(h, ph) && ph != Rest && ph != WrqOut && ph != DataOut
    ensures h.ioArg.Some? && Unused(h, h.ioArg.value) && XferOk(h.transfers[h.ioArg.value], ph)
  {
    hide OthersOk, QueueOk, Signals, XferOk, LocalOk;
  }

  lemma SerialHarmless(h: H, ph: Phase)
    requires h.port != [] && h.port[0] == SerialReply && Inv(h, ph) && ph != Rest && h.serial.Replied?
    ensures Harmless(h)
  {
    hide OthersOk, QueueOk, Signals, XferOk, LocalOk;
  }

  lemma TimerHarmless(h: H, ph: Phase)
    requires h.port != [] && h.port[0] == TimerReply && Inv(h, ph) && h.local.Some? && h.local.value < |h.transfers|
    ensures Harmless(h)
  {
    hide OthersOk, QueueOk, XferOk, LocalOk;
    OfMembers(h.port, Timer);
  }

  lemma IdleHarmless(h: H, ph: Phase)
    requires h.port != [] && Inv(h, ph) && (KindOf(h.port[0]) == Client || KindOf(h.port[0]) == Wake)
    ensures Harmless(h)
  {
    hide OthersOk, QueueOk, Signals, XferOk, LocalOk;
  }

  /** In every reachable state of an orderly run the next message can be handled without harm. */
  lemma NextIsHarmless(h: H, moves: seq<Move>)
    requires Initial(h) && PossibleRun(h, moves) && Throughout(h, moves, Orderly) && After(h, moves).running
    ensures Harmless(After(h, moves))
  {
    hide After, Inv, Harmless;
    InitInv(h);
    InvFine(h, Rest);
    var last := RunInv(h, Rest, moves);
    HeadHarmless(After(h, moves), last);
  }

  /** The payloads of transfer i that wait to be sent or acknowledged. While BUFFER_FINISHED is queued
      the head buffer is acknowledged but not released yet. */
  function QueuedPayloads(h: H, i: nat): seq<seq<byte>>
    requires i < |h.transfers|
  {
    var bufs := h.transfers[i].buffers;
    if BufferFinished(i) in h.port && bufs != [] then Payloads(BytesOf(bufs[1..])) else Unacked(bufs)
  }

  lemma XferRecord(h: H, ph: Phase, i: nat)
    requires Inv(h, ph) && i < |h.transfers|
    ensures |h.transfers[i].acked| <= MAX_BLOCKS && h.transfers[i].blknum <= MAX_BLOCKS + 1
    ensures Conserved(h.transfers[i], QueuedPayloads(h, i))
  {
    hide QueueOk, Payloads, Unacked, XferOk, RestOk, Conserved;
    OfMembers(h.port, Active);
    assert BufferFinished(i) in h.port <==> BufferFinished(i) in Of(h.port, Active);
    if ph != Rest && h.ioArg == Some(i) {
      XferConserved(h.transfers[i], ph);
    } else {
      RestConserved(h.transfers[i]);
    }
  }

  /** Against any server: no transfer has more than 65535 acknowledged DATA packets, and no block
      number exceeds 65536. */
  lemma BlockBound(h: H, moves: seq<Move>, i: nat)
    requires Initial(h) && PossibleRun(h, moves) && Throughout(h, moves, Orderly)
    requires After(h, moves).running && i < |After(h, moves).transfers|
    ensures |After(h, moves).transfers[i].acked| <= MAX_BLOCKS
    ensures After(h, moves).transfers[i].blknum <= MAX_BLOCKS + 1
  {
    hide After, Inv, Conserved, QueuedPayloads;
    InitInv(h);
    InvFine(h, Rest);
    var last := RunInv(h, Rest, moves);
    XferRecord(After(h, moves), last, i);
  }

  /** While a DATA packet is on its way or its acknowledgement is awaited, the cursor and the number of
      bytes left add up to the length of the buffer, and the chunk between them is inside it. */
  lemma CursorInStep(h: H, moves: seq<Move>, i: nat)
    requires Initial(h) && PossibleRun(h, moves) && Throughout(h, moves, Orderly)
    requires After(h, moves).running && i < |After(h, moves).transfers|
    requires After(h, moves).transfers[i].state == DataSent && After(h, moves).serial != Idle
    ensures var t := After(h, moves).transfers[i];
            && t.buffers != [] && InBounds(t.buffers[0])
            && t.buffers[0].curpos + t.buffers[0].left == |t.buffers[0].bytes|
  {
    hide After, Inv;
    InitInv(h);
    InvFine(h, Rest);
    var last := RunInv(h, Rest, moves);
    ActiveCursor(After(h, moves), last, i);
  }

  lemma ActiveCursor(h: H, ph: Phase, i: nat)
    requires Inv(h, ph) && i < |h.transfers| && h.transfers[i].state == DataSent && h.serial != Idle
    ensures h.transfers[i].buffers != [] && 0 <= h.transfers[i].buffers[0].left && Cursor(h.transfers[i].buffers[0], 0)
  {
    hide Signals, QueueOk, Conserved;
    assert h.ioArg == Some(i) || RestOk(h.transfers[i]);
  }

  predicate Split(h: H, i: nat, writes: seq<seq<byte>>)
    requires i < |h.transfers|
  {
    var t := h.transfers[i];
    Flatten(writes) == Flatten(t.acked) + Flatten(QueuedPayloads(h, i)) + Flatten(t.dropped)
  }

  /** Every byte written with memory for it is acknowledged, still queued, or was discarded when the file failed: the
      three follow each other without gap or overlap. */
  lemma Conservation(h: H, moves: seq<Move>, i: nat)
    requires Initial(h) && PossibleRun(h, moves) && Throughout(h, moves, Orderly)
    requires After(h, moves).running && i < |After(h, moves).transfers|
    ensures Split(After(h, moves), i, BytesFor(Log(h, moves), i))
  {
    hide After, Inv, QueuedPayloads, Log, BytesFor, PathsIn, NameOf;
    HandedIn(h, moves);
    InitInv(h);
    InvFine(h, Rest);
    var last := RunInv(h, Rest, moves);
    var r := After(h, moves);
    var t := r.transfers[i];
    XferRecord(r, last, i);
    FlattenPayloads(t.writes);
    FlattenConcat(t.acked + QueuedPayloads(r, i), t.dropped);
    FlattenConcat(t.acked, QueuedPayloads(r, i));
  }

  /** When a timeout is handled, the link stays owned exactly if the local variable of the main loop
      names the active transfer. */
  lemma TimeoutExact(h: H, ph: Phase, net: Net)
    requires PtrOk(h) && h.port != [] && h.port[0] == TimerReply && Inv(h, ph) && !h.stranded
    ensures LinkOwned(Handle(h, net)) <==> h.local == h.ioArg
  {
    hide Inv, Handle, PtrOk;
    TakeTimer(h, ph);
    TimerLocal(h, ph);
    if h.local == h.ioArg {
      HandleTimer(h, ph, net);
      TimelyTimeout(h, net);
      InvOwned(Handle(h, net), Rest);
    } else {
      TimeoutElsewhere(h, ph, net);
    }
  }

  lemma TimelyTimeout(h: H, net: Net)
    requires PtrOk(h) && h.port != [] && h.port[0] == TimerReply && h.local == h.ioArg
    ensures Handle(h, net).stranded == h.stranded
  {
    hide PtrOk, Without, Fail;
    HeadPoints(h);
  }

  lemma TimeoutElsewhere(h: H, ph: Phase, net: Net)
    requires PtrOk(h) && h.port != [] && h.port[0] == TimerReply && h.local.Some? && h.local != h.ioArg
    requires ph != Rest && Inv(h, ph)
    ensures !LinkOwned(Handle(h, net))
  {
    hide PtrOk, XferOk, RestOk, Signals, QueueOk, Without, HasInternal;
    HeadPoints(h);
    var a := h.ioArg.value;
    XferSent(h.transfers[a], ph);
    assert Handle(h, net).transfers[a] == h.transfers[a];
  }
}

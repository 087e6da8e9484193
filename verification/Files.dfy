/** What is true of the record of one transfer, alone, at each stage of its life. */
module Files {
  import opened Bytes
  import opened Packets
  import opened Engine

  const MAX_BLOCKS := 0xFFFF

  /** How far the active transfer is: its request or its DATA packet is out, or the packet that sends
      its next buffer, continues its buffer or releases its buffer is queued. Rest: no transfer. */
  datatype Phase = Rest | WrqOut | DataOut | Next | Cont | BufDone

  predicate Sent(t: Ftx) {
    t.state == WrqSent || t.state == DataSent
  }

  predicate AllFresh(bufs: seq<FileBuf>) {
    forall i :: 0 <= i < |bufs| ==> Fresh(bufs[i])
  }

  /** Nothing of the file has been sent. */
  predicate Untouched(t: Ftx) {
    t.blknum == 0 && t.acked == [] && t.dropped == [] && AllFresh(t.buffers) && t.writes == BytesOf(t.buffers)
  }

  /** Every payload of the accepted buffers is acknowledged, still queued, or was dropped. */
  predicate Conserved(t: Ftx, queued: seq<seq<byte>>) {
    Payloads(t.writes) == t.acked + queued + t.dropped
  }

  /** A transfer that does not have the link. One in flight has lost it to a timeout. */
  predicate RestOk(t: Ftx) {
    match t.state
    case Queued => Untouched(t)
    case Ready => Untouched(t)
    case Error => Conserved(t, Unacked(t.buffers)) && (t.buffers != [] ==> t.dropped == [])
                  && |t.acked| <= MAX_BLOCKS && t.blknum <= MAX_BLOCKS + 1
    case Finished => t.buffers == [] && t.dropped == [] && t.acked == Payloads(t.writes)
                     && t.blknum == |t.acked| <= MAX_BLOCKS
    case WrqSent => Untouched(t)
    case DataSent => XferOk(t, DataOut)
  }

  /** The cursor splits the buffer into what has been acknowledged and what has not; `gap` is what
      was acknowledged since the cursor last moved. */
  predicate Cursor(b: FileBuf, gap: nat) {
    b.curpos + gap + b.left == |b.bytes|
  }

  predicate HeadOk(t: Ftx) {
    t.buffers != [] && AllFresh(t.buffers[1..])
  }

  /** The transfer that has the link, in phase ph. */
  predicate XferOk(t: Ftx, ph: Phase) {
    && t.dropped == [] && |t.acked| <= MAX_BLOCKS
    && match ph
       case Rest => false
       case WrqOut => t.state == WrqSent && Untouched(t)
       case Next => Sent(t) && (t.state == WrqSent ==> Untouched(t)) && t.blknum == |t.acked|
                    && AllFresh(t.buffers) && Conserved(t, Payloads(BytesOf(t.buffers)))
       case DataOut => t.state == DataSent && t.blknum == |t.acked| + 1 && HeadOk(t)
                       && 0 <= t.buffers[0].left && Cursor(t.buffers[0], 0) && Conserved(t, Unacked(t.buffers))
       case Cont => t.state == DataSent && t.blknum == |t.acked| && HeadOk(t)
                    && 0 < t.buffers[0].left && Cursor(t.buffers[0], TFTP_MAX_DATA_SIZE)
                    && Conserved(t, Unacked(t.buffers))
       case BufDone => t.state == DataSent && t.blknum == |t.acked| && HeadOk(t)
                       && Conserved(t, Payloads(BytesOf(t.buffers[1..])))
  }

  // ---------------------------------------------------------------------------------------
  // How the steps of a transfer lead from one stage to the next
  // ---------------------------------------------------------------------------------------

  lemma BytesOfTail(bufs: seq<FileBuf>)
    requires bufs != []
    ensures BytesOf(bufs)[1..] == BytesOf(bufs[1..])
  {
  }

  lemma UnackedFresh(bufs: seq<FileBuf>)
    requires AllFresh(bufs)
    ensures Unacked(bufs) == Payloads(BytesOf(bufs))
  {
    if bufs != [] {
      BytesOfTail(bufs);
      var b := bufs[0];
      assert b.bytes[|b.bytes| - b.left..] == b.bytes;
    }
  }

  lemma {:induction false} FlattenChunks(s: seq<byte>)
    ensures Flatten(Chunks(s)) == s
  {
    if |s| <= TFTP_MAX_DATA_SIZE {
      assert Flatten([s]) == s + Flatten([]);
    } else {
      FlattenChunks(s[TFTP_MAX_DATA_SIZE..]);
    }
  }

  /** Splitting buffers into payloads loses nothing and adds nothing. */
  lemma {:induction false} FlattenPayloads(writes: seq<seq<byte>>)
    ensures Flatten(Payloads(writes)) == Flatten(writes)
  {
    if writes != [] {
      FlattenChunks(writes[0]);
      FlattenPayloads(writes[1..]);
      FlattenConcat(Chunks(writes[0]), Payloads(writes[1..]));
    }
  }

  lemma NewOk(name: CString)
    ensures RestOk(NewFtx(name)) && NewFtx(name).state == Queued
  {
  }

  function Written(t: Ftx, bytes: seq<byte>): Ftx {
    t.(buffers := t.buffers + [FreshBuf(bytes)], writes := t.writes + [bytes])
  }

  lemma WriteOk(t: Ftx, bytes: seq<byte>)
    requires t.state == Queued && RestOk(t)
    ensures RestOk(Written(t, bytes))
  {
    assert BytesOf(t.buffers + [FreshBuf(bytes)]) == BytesOf(t.buffers) + [bytes];
  }

  /** An untouched file that gets the link has everything still to send. */
  lemma UntouchedConserved(t: Ftx)
    requires Untouched(t)
    ensures Conserved(t, Payloads(BytesOf(t.buffers))) && Conserved(t, Unacked(t.buffers))
  {
    UnackedFresh(t.buffers);
  }

  /** Losing the link by a failure. */
  lemma FailOk(t: Ftx, ph: Phase, error: nat)
    requires XferOk(t, ph) && ph != BufDone
    ensures RestOk(t.(state := Error, error := error))
  {
    if t.state == WrqSent {
      UntouchedConserved(t);
    }
    if ph == Next {
      UnackedFresh(t.buffers);
    }
  }

  lemma StrandOk(t: Ftx, ph: Phase)
    requires XferOk(t, ph) && (ph == WrqOut || ph == DataOut)
    ensures RestOk(t)
  {
  }

  lemma RestFailOk(t: Ftx, error: nat)
    requires RestOk(t) && t.state != Queued
    ensures RestOk(t.(state := Error, error := error))
  {
    match t.state
    case Ready => UntouchedConserved(t);
    case WrqSent => UntouchedConserved(t);
    case DataSent => FailOk(t, DataOut, error);
    case Finished => assert t.acked + [] + [] == t.acked;
    case _ =>
  }

  lemma DropOk(t: Ftx)
    requires RestOk(t) && (t.state == Error || t.state == Finished)
    ensures RestOk(t.(buffers := [], dropped := t.dropped + Unacked(t.buffers)))
  {
    hide Payloads, RestOf, BytesOf;
    assert t.acked + Unacked(t.buffers) + [] == t.acked + [] + ([] + Unacked(t.buffers));
    assert t.buffers == [] ==> t.acked + [] + (t.dropped + []) == t.acked + [] + t.dropped;
  }

  lemma FinishOk(t: Ftx)
    requires XferOk(t, Next) && t.buffers == []
    ensures RestOk(t.(state := Finished))
  {
    assert t.acked + [] + [] == t.acked;
  }

  /** Sending the first chunk of the next buffer. */
  lemma FirstChunkOk(t: Ftx, error: nat)
    requires XferOk(t, Next) && t.buffers != []
    ensures InBounds(t.buffers[0])
    ensures (t.blknum + 1) % TWO32 == t.blknum + 1
    ensures XferOk(t.(blknum := t.blknum + 1, state := DataSent), DataOut)
    ensures RestOk(t.(blknum := t.blknum + 1, state := Error, error := error))
  {
    UnackedFresh(t.buffers);
  }

  /** The cursor moves on to the next chunk of the same buffer. */
  function Advanced(t: Ftx): Ftx
    requires t.buffers != []
  {
    t.(buffers := [t.buffers[0].(curpos := t.buffers[0].curpos + TFTP_MAX_DATA_SIZE)] + t.buffers[1..])
  }

  lemma NextChunkOk(t: Ftx, error: nat)
    requires XferOk(t, Cont)
    ensures InBounds(Advanced(t).buffers[0])
    ensures (t.blknum + 1) % TWO32 == t.blknum + 1
    ensures XferOk(Advanced(t).(blknum := t.blknum + 1, state := DataSent), DataOut)
    ensures RestOk(Advanced(t).(blknum := t.blknum + 1, state := Error, error := error))
  {
    assert Advanced(t).buffers[1..] == t.buffers[1..];
    assert Unacked(Advanced(t).buffers) == Unacked(t.buffers);
  }

  function Acked(t: Ftx): Ftx
    requires t.buffers != [] && InBounds(t.buffers[0])
  {
    var b := t.buffers[0];
    t.(buffers := [b.(left := b.left - TFTP_MAX_DATA_SIZE)] + t.buffers[1..], acked := t.acked + [Chunk(b)])
  }

  /** The chunk in flight is the first payload not acknowledged. */
  lemma InFlight(b: FileBuf)
    requires 0 <= b.left && Cursor(b, 0)
    ensures InBounds(b)
    ensures RestOf(b) == [Chunk(b)] + if b.left > TFTP_MAX_DATA_SIZE
                                      then RestOf(b.(left := b.left - TFTP_MAX_DATA_SIZE)) else []
  {
    var rest := b.bytes[b.curpos..];
    assert |b.bytes| - b.left == b.curpos;
    if b.left > TFTP_MAX_DATA_SIZE {
      assert rest[..TFTP_MAX_DATA_SIZE] == Chunk(b);
      assert rest[TFTP_MAX_DATA_SIZE..] == b.bytes[b.curpos + TFTP_MAX_DATA_SIZE..];
    } else {
      assert rest == Chunk(b);
    }
  }

  /** An acknowledged chunk moves from the queue to the acknowledged payloads. */
  lemma AckOk(t: Ftx)
    requires XferOk(t, DataOut) && t.blknum <= MAX_BLOCKS
    ensures InBounds(t.buffers[0])
    ensures XferOk(Acked(t), if t.buffers[0].left > TFTP_MAX_DATA_SIZE then Cont else BufDone)
  {
    hide Payloads, Chunks, Chunk, RestOf;
    var b := t.buffers[0];
    InFlight(b);
    var rest := if b.left > TFTP_MAX_DATA_SIZE then RestOf(b.(left := b.left - TFTP_MAX_DATA_SIZE)) else [];
    assert Acked(t).buffers[1..] == t.buffers[1..];
    MoveChunk(t.acked, Chunk(b), rest, Payloads(BytesOf(t.buffers[1..])));
  }

  lemma MoveChunk(acked: seq<seq<byte>>, chunk: seq<byte>, rest: seq<seq<byte>>, later: seq<seq<byte>>)
    ensures acked + (([chunk] + rest) + later) + [] == (acked + [chunk]) + (rest + later) + []
    ensures rest == [] ==> rest + later == later
  {
  }

  lemma ReleaseOk(t: Ftx)
    requires XferOk(t, BufDone)
    ensures XferOk(t.(buffers := t.buffers[1..]), Next)
  {
  }

  lemma XferConserved(t: Ftx, ph: Phase)
    requires XferOk(t, ph)
    ensures |t.acked| <= MAX_BLOCKS && t.blknum <= MAX_BLOCKS + 1
    ensures ph == BufDone ==> t.buffers != []
    ensures Conserved(t, if ph == BufDone then Payloads(BytesOf(t.buffers[1..])) else Unacked(t.buffers))
  {
    if ph == WrqOut {
      UntouchedConserved(t);
    } else if ph == Next {
      UnackedFresh(t.buffers);
    }
  }

  lemma RestConserved(t: Ftx)
    requires RestOk(t)
    ensures |t.acked| <= MAX_BLOCKS && t.blknum <= MAX_BLOCKS + 1
    ensures Conserved(t, Unacked(t.buffers))
  {
    if t.state == Finished {
      assert t.acked + [] + [] == t.acked;
    } else if t.state == DataSent {
      XferConserved(t, DataOut);
    } else if t.state != Error {
      UntouchedConserved(t);
    }
  }
}

/** Buffers are released: a file that has ended keeps none once its end has been announced. */
module Release {
  import opened Bytes
  import opened Messages
  import opened Packets
  import opened Paths
  import opened Engine
  import opened Files
  import opened Ownership
  import opened Effects
  import opened Overtaking
  import opened Delivery
  import opened Causes
  import opened Reuse

  /** A failed file that still has buffers is about to be announced. */
  predicate Freed(h: H) {
    forall i :: 0 <= i < |h.transfers| && h.transfers[i].state == Error && h.transfers[i].buffers != [] ==>
      FileFailed(i) in h.port
  }

  lemma PostsKeep(h: H, r: H, n: nat, m: Msg<nat>)
    requires Posts(h, r, n) && m in h.port && Internal(m)
    ensures m in r.port
  {
    hide Internals, Of;
  }

  lemma StillQueued(h: H, net: Net, m: Msg<nat>)
    requires PtrOk(h) && h.port != [] && m in h.port && Internal(m) && m != h.port[0]
    ensures m in Handle(h, net).port
  {
    hide PtrOk, Handle, Count, Posts, Internal;
    assert m in h.port[1..];
    if Internal(h.port[0]) {
      InsideSends(h, net);
      var n := if Posts(Rest1(h), Handle(h, net), 0) then 0 else 1;
      PostsKeep(Rest1(h), Handle(h, net), n, m);
    } else {
      OutsideSends(h, net);
      PostsKeep(Rest1(h), Handle(h, net), Count(h, net), m);
    }
  }

  /** Only file i changes in the pass, and it had not failed, or its buffers are released. */
  predicate Touches(h: H, r: H, i: nat)
    requires h.port != []
  {
    && (forall j :: 0 <= j < |r.transfers| && j != i ==>
          (j < |h.transfers| && r.transfers[j] == h.transfers[j]) || r.transfers[j].state == Queued)
    && (i < |r.transfers| && r.transfers[i].buffers != [] ==> i < |h.transfers| && h.port[0] != FileFailed(i))
    && (i < |r.transfers| && r.transfers[i].buffers != [] && r.transfers[i].state == Error ==>
          i < |h.transfers| && (h.transfers[i].state != Error || h.port[0] == TimerReply))
  }

  lemma TouchedFreed(h: H, net: Net, i: nat)
    requires PtrOk(h) && h.port != [] && Freed(h) && Touches(h, Handle(h, net), i)
    requires h.port[0].FileFailed? ==> h.port[0].ftx == i
    requires h.port[0] == TimerReply ==> h.local == Some(i)
    ensures Freed(Handle(h, net))
  {
    hide PtrOk, Handle, Cause;
    CauseExact(h, net);
    var r := Handle(h, net);
    forall j | 0 <= j < |r.transfers| && r.transfers[j].state == Error && r.transfers[j].buffers != []
      ensures FileFailed(j) in r.port
    {
      if Cause(h, net).Some? && Cause(h, net).value.ftx == j {
        assert r.port[|r.port| - 1] in r.port;
      } else if j != i {
        StillQueued(h, net, FileFailed(j));
      } else {
        TimeoutCause(h, net);
      }
    }
  }

  lemma TimeoutCause(h: H, net: Net)
    requires PtrOk(h) && h.port != []
    ensures h.port[0] == TimerReply && h.local.Some? ==> Cause(h, net) == Some(Failure(h.local.value, 1004))
  {
    hide PtrOk;
  }

  lemma KeptTouches(h: H, r: H, i: nat)
    requires h.port != [] && Kept(Rest1(h), r, i) && i < |h.transfers| && h.port[0] != FileFailed(i)
    requires h.transfers[i].state != Error || h.port[0] == TimerReply
    ensures Touches(h, r, i)
  {
  }

  lemma DoneTouches(h: H, net: Net)
    requires PtrOk(h) && h.port != [] && (h.port[0].FileFinished? || h.port[0].FileFailed?)
    ensures Touches(h, Handle(h, net), h.port[0].ftx)
  {
    hide PtrOk, HasInternal, Unacked;
    HeadPoints(h);
  }

  lemma FinishTouches(h: H, net: Net)
    requires PtrOk(h) && h.port != [] && Finishing(h)
    ensures Touches(h, Handle(h, net), h.port[0].ftx)
  {
    hide PtrOk, Handle;
    FinishEffect(h, net);
  }

  lemma ActiveTouches(h: H, ph: Phase, net: Net)
    requires PtrOk(h) && h.port != [] && Inv(h, ph) && KindOf(h.port[0]) == Active
    ensures Touches(h, Handle(h, net), h.port[0].ftx)
  {
    hide PtrOk, Inv, Up, Kept, Touches, Finishing, Handle;
    TakeToken(h, ph);
    InvActive(h, ph);
    if Finishing(h) {
      FinishTouches(h, net);
    } else {
      ActiveKept(h, net);
      KeptTouches(h, Handle(h, net), h.port[0].ftx);
    }
  }

  lemma ActiveKept(h: H, net: Net)
    requires PtrOk(h) && h.port != [] && KindOf(h.port[0]) == Active && !Finishing(h)
    ensures h.port[0].ftx < |h.transfers| && Kept(Rest1(h), Handle(h, net), h.port[0].ftx)
  {
    hide PtrOk, Kept, DoSendNextBuffer, DoContinueBuffer, DoBufferFinished;
    HeadPoints(h);
    KeptActive(Rest1(h), h.port[0], net);
  }

  lemma SerialTouches(h: H, ph: Phase, net: Net)
    requires PtrOk(h) && h.port != [] && Inv(h, ph) && h.port[0] == SerialReply
    ensures h.ioArg.Some? && Touches(h, Handle(h, net), h.ioArg.value)
  {
    hide PtrOk, Inv, Up, Kept, Touches, DoWriteReturn, DoReadReturn, Acknowledges;
    TakeSerial(h, ph);
    InvActive(h, ph);
    ReplyOp(h, ph);
    HeadPoints(h);
    ArgPoints(h);
    var h1, i, r := Rest1(h), h.ioArg.value, Handle(h, net);
    if h.ioType == WriteReturn {
      KeptWriteReturn(h1, i, net.mem);
      KeptTouches(h, r, i);
    } else if HasData(h.serial) && Acknowledges(Opened(h1, i, net.mem), i) {
      AckEffect(h1, i, net.mem);
      AckTouches(h, Overlay(h.tftppkt, h.serial.reply.bytes), i, r);
    } else {
      KeptReadReturn(h1, i, net.mem);
      KeptTouches(h, r, i);
    }
  }

  lemma AckTouches(h: H, tftppkt: seq<byte>, i: nat, r: H)
    requires h.port != [] && h.port[0] == SerialReply && i < |h.transfers| && |tftppkt| >= 4
    requires Acknowledges(h.(port := h.port[1..], tftppkt := tftppkt), i)
    requires r.transfers == h.transfers[i := Acked(h.transfers[i])]
    ensures Touches(h, r, i)
  {
    hide GetOpcode, GetBlknum, InBounds, Chunk;
  }

  lemma TimerTouches(h: H, ph: Phase, net: Net)
    requires PtrOk(h) && h.port != [] && Inv(h, ph) && h.port[0] == TimerReply
    ensures h.local.Some? && Touches(h, Handle(h, net), h.local.value)
  {
    hide PtrOk, Inv, Up, Kept, Touches, DoTimerExpired;
    TakeTimer(h, ph);
    TimerLocal(h, ph);
    HeadPoints(h);
    KeptTimer(Rest1(h));
    KeptTouches(h, Handle(h, net), h.local.value);
  }

  lemma PickTouches(h: H, net: Net)
    requires PtrOk(h) && h.port != [] && h.port[0] == SendNextFile
    ensures Touches(h, Handle(h, net), if Starts(h).Some? then Starts(h).value else |h.transfers|)
  {
    hide PtrOk, Send, Kept;
    match Starts(h)
    case None =>
    case Some(i) =>
      KeptSend(Picked(Rest1(h), i), i, Wrq(h.transfers[i].name), WrqSent, net);
      PickedTouches(h, Handle(h, net), i);
  }

  lemma PickedTouches(h: H, r: H, i: nat)
    requires h.port != [] && h.port[0] == SendNextFile && i < |h.transfers| && h.transfers[i].state == Ready
    requires Kept(Picked(Rest1(h), i), r, i)
    ensures Touches(h, r, i)
  {
  }

  lemma OpenTouches(h: H, path: CString, mem: bool)
    requires h.port != [] && !h.port[0].FileFailed?
    ensures Touches(h, DoFindOutput(Rest1(h), path, mem), |h.transfers| + 1)
  {
    hide NamePart, Min;
  }

  lemma WrittenTouches(h: H, i: nat, bytes: seq<byte>)
    requires h.port != [] && !h.port[0].FileFailed? && i < |h.transfers| && h.transfers[i].state == Queued
    ensures Touches(h, DoWrite(Rest1(h), i, bytes, true), i)
  {
    hide FreshBuf;
  }

  lemma EndTouches(h: H, i: nat)
    requires h.port != [] && !h.port[0].FileFailed? && i < |h.transfers| && h.transfers[i].state == Queued
    ensures Touches(h, DoEnd(Rest1(h), i), i)
  {
    hide HasInternal;
  }

  lemma SameTouches(h: H, r: H)
    requires h.port != [] && r.transfers == h.transfers
    ensures Touches(h, r, |h.transfers| + 1)
  {
  }

  lemma ClientTouches(h: H, ph: Phase, net: Net)
    requires PtrOk(h) && h.port != [] && Inv(h, ph) && KindOf(h.port[0]) == Client && Orderly(h, Step(net))
    ensures Touches(h, Handle(h, net), if h.port[0].HasFtx() then h.port[0].ftx else |h.transfers| + 1)
  {
    hide PtrOk, Inv, DoWrite, DoEnd, DoFindOutput, Abort, Touches;
    HeadPoints(h);
    HeadFacts(h, ph);
    match h.port[0]
    case Write(i, bytes) => WrittenTouches(h, i, bytes);
    case End(i) => EndHead(h, i); EndTouches(h, i);
    case FindOutput(path) => OpenTouches(h, path, net.mem);
    case Die => AbandonedFiles(Rest1(h)); SameTouches(h, Handle(h, net));
    case Other => SameTouches(h, Handle(h, net));
  }

  lemma PassFreed(h: H, ph: Phase, net: Net)
    requires PtrOk(h) && h.port != [] && Inv(h, ph) && Freed(h) && Orderly(h, Step(net))
    ensures Freed(Handle(h, net))
  {
    hide PtrOk, Inv, Handle, Freed, Touches;
    var m := h.port[0];
    match KindOf(m)
    case Active => ActiveTouches(h, ph, net); TouchedFreed(h, net, m.ftx);
    case Serial => SerialTouches(h, ph, net); TouchedFreed(h, net, h.ioArg.value);
    case Timer => TimerTouches(h, ph, net); TouchedFreed(h, net, h.local.value);
    case Client =>
      ClientTouches(h, ph, net);
      TouchedFreed(h, net, if m.HasFtx() then m.ftx else |h.transfers| + 1);
    case Wake =>
      if m == SendNextFile {
        PickTouches(h, net);
        TouchedFreed(h, net, if Starts(h).Some? then Starts(h).value else |h.transfers|);
      } else {
        DoneTouches(h, net);
        TouchedFreed(h, net, m.ftx);
      }
  }

  lemma MoveFreed(h: H, ph: Phase, mv: Move)
    requires PtrOk(h) && Possible(h, mv) && Inv(h, ph) && Freed(h) && Orderly(h, mv)
    ensures Freed(Apply(h, mv))
  {
    hide PtrOk, Inv, Handle, Orderly;
    if mv.Step? {
      PassFreed(h, ph, mv.net);
    }
  }

  lemma {:induction false} RunFreed(h: H, ph: Phase, moves: seq<Move>) returns (last: Phase)
    requires PtrOk(h) && PossibleRun(h, moves) && Fine(h, ph) && Freed(h) && Throughout(h, moves, Orderly)
    ensures Fine(After(h, moves), last) && Freed(After(h, moves))
    decreases |moves|
  {
    hide Inv, PtrOk, Apply, Freed, Orderly, NextPhase;
    last := ph;
    if moves != [] {
      MoveFreed(h, ph, moves[0]);
      ApplyInv(h, ph, moves[0]);
      last := RunFreed(Apply(h, moves[0]), PhaseAfter(h, ph, moves[0]), moves[1..]);
    }
  }

  lemma FinishedFree(h: H, ph: Phase, i: nat)
    requires Inv(h, ph) && i < |h.transfers| && h.transfers[i].state == Finished
    ensures h.transfers[i].buffers == []
  {
    hide Inv, Conserved;
    AtRest(h, ph, i);
  }

  /** In every reachable state of an orderly run, a file that is finished, or has failed and been announced,
      has no buffers left. */
  lemma BuffersReleased(h: H, moves: seq<Move>, i: nat)
    requires Initial(h) && PossibleRun(h, moves) && Throughout(h, moves, Orderly) && After(h, moves).running
    requires i < |After(h, moves).transfers|
    ensures var r := After(h, moves);
            && (r.transfers[i].state == Finished ==> r.transfers[i].buffers == [])
            && (r.transfers[i].state == Error && FileFailed(i) !in r.port ==> r.transfers[i].buffers == [])
  {
    hide After, Inv;
    InitInv(h);
    InvFine(h, Rest);
    var last := RunFreed(h, Rest, moves);
    if After(h, moves).transfers[i].state == Finished {
      FinishedFree(After(h, moves), last, i);
    }
  }
}

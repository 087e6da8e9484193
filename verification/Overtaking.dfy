/** A file that is ready waits for at most as many others as stand before it in the list. */
module Overtaking {
  import opened Bytes
  import opened Messages
  import opened Packets
  import opened Engine
  import opened Files
  import opened Ownership
  import opened Effects

  predicate Waiting(t: Ftx) {
    t.state == Queued || t.state == Ready
  }

  /** Files only ever move on from open to ready and from ready to started. */
  predicate Forward(a: seq<Ftx>, b: seq<Ftx>) {
    && |a| <= |b|
    && forall j :: 0 <= j < |a| ==>
         (b[j].state == Queued ==> a[j].state == Queued) && (b[j].state == Ready ==> Waiting(a[j]))
  }

  /** The file a pass starts, if it starts one. */
  function Starts(h: H): Option<nat> {
    if h.port != [] && h.port[0] == SendNextFile && !h.busy then NextReady(h.transfers, 0) else None
  }

  function StartedBy(h: H): seq<nat> {
    match Starts(h)
    case None => []
    case Some(i) => [i]
  }

  predicate Ordered(h: H, r: H) {
    && Forward(h.transfers, r.transfers) && r.started == h.started + StartedBy(h)
    && (Starts(h).Some? ==> Starts(h).value < |r.transfers| && !Waiting(r.transfers[Starts(h).value]))
  }

  lemma KeptOrdered(h: H, r: H, i: nat)
    requires h.port != [] && Kept(Rest1(h), r, i) && Starts(h) == None
    ensures Ordered(h, r)
  {
    forall j | 0 <= j < |h.transfers|
      ensures r.transfers[j].state == Queued ==> h.transfers[j].state == Queued
      ensures r.transfers[j].state == Ready ==> Waiting(h.transfers[j])
    {
      assert j == i ==> SameFile(h.transfers[i], r.transfers[i]);
    }
  }

  lemma SetOrdered(h: H, r: H, j: nat)
    requires h.port != [] && j < |h.transfers| == |r.transfers| && r.transfers == h.transfers[j := r.transfers[j]]
    requires r.started == h.started && Starts(h) == None
    requires r.transfers[j].state == Queued ==> h.transfers[j].state == Queued
    requires r.transfers[j].state == Ready ==> Waiting(h.transfers[j])
    ensures Ordered(h, r)
  {
  }

  lemma SendState(h: H, i: nat, p: Packet, next: FileState, net: Net)
    requires i < |h.transfers|
    ensures i < |Send(h, i, p, next, net).transfers|
    ensures Send(h, i, p, next, net).transfers[i].state == if SendError(net) == 0 then next else Error
  {
    hide Fail;
    FailState(h, i, SendError(net));
  }

  lemma PickOrdered(h: H, net: Net)
    requires PtrOk(h) && h.port != [] && h.port[0] == SendNextFile
    ensures Ordered(h, Handle(h, net))
  {
    hide PtrOk, Send, HasInternal, Ordered, Kept;
    var h1, r := Rest1(h), Handle(h, net);
    match Starts(h)
    case None =>
      KeptSame(h1, r, 0);
      KeptOrdered(h, r, 0);
    case Some(i) =>
      var h2 := Picked(h1, i);
      KeptSend(h2, i, Wrq(h.transfers[i].name), WrqSent, net);
      SendState(h2, i, Wrq(h.transfers[i].name), WrqSent, net);
      KeptLength(h2, r, i);
      SentOrdered(h, h2, r, i);
  }

  lemma SentOrdered(h: H, h2: H, r: H, i: nat)
    requires Starts(h) == Some(i) && i < |h.transfers| == |r.transfers| && h2.transfers == h.transfers && Kept(h2, r, i)
    requires h2.started == h.started + [i] && !Waiting(r.transfers[i])
    ensures Ordered(h, r)
  {
  }

  lemma SerialOrdered(h: H, net: Net)
    requires PtrOk(h) && h.port != [] && h.port[0] == SerialReply
    ensures Ordered(h, Handle(h, net))
  {
    hide Kept, Ordered, DoWriteReturn, DoReadReturn, Acknowledges, PtrOk;
    HeadPoints(h);
    ArgPoints(h);
    var h1, r := Rest1(h), Handle(h, net);
    if h.ioArg.None? || h.ioType == NoIo {
      KeptSame(h1, r, 0);
      KeptOrdered(h, r, 0);
    } else if h.ioType == WriteReturn {
      KeptWriteReturn(h1, h.ioArg.value, net.mem);
      KeptOrdered(h, r, h.ioArg.value);
    } else if HasData(h.serial) && Acknowledges(Opened(h1, h.ioArg.value, net.mem), h.ioArg.value) {
      AckEffect(h1, h.ioArg.value, net.mem);
      SetOrdered(h, r, h.ioArg.value);
    } else {
      KeptReadReturn(h1, h.ioArg.value, net.mem);
      KeptOrdered(h, r, h.ioArg.value);
    }
  }

  lemma WriteOrdered(h: H, j: nat, bytes: seq<byte>, net: Net)
    requires PtrOk(h) && h.port != [] && h.port[0] == Write(j, bytes) && net.mem
    ensures Ordered(h, Handle(h, net))
  {
    hide PtrOk, Ordered, FreshBuf;
    HeadPoints(h);
    SetOrdered(h, Handle(h, net), j);
  }

  lemma EndOrdered(h: H, j: nat, net: Net)
    requires PtrOk(h) && h.port != [] && h.port[0] == End(j) && j < |h.transfers| && h.transfers[j].state == Queued
    ensures Ordered(h, Handle(h, net))
  {
    hide PtrOk, Ordered, HasInternal;
    SetOrdered(h, Handle(h, net), j);
  }

  lemma OtherOrdered(h: H, net: Net)
    requires PtrOk(h) && h.port != [] && (h.port[0].FindOutput? || h.port[0] == Die || h.port[0] == Other)
    ensures Ordered(h, Handle(h, net))
  {
    hide PtrOk, Without, Min;
  }

  lemma ClientOrdered(h: H, ph: Phase, net: Net)
    requires PtrOk(h) && h.port != [] && Inv(h, ph) && KindOf(h.port[0]) == Client && Orderly(h, Step(net))
    ensures Ordered(h, Handle(h, net))
  {
    hide Inv, PtrOk, Handle, Ordered;
    HeadFacts(h, ph);
    match h.port[0]
    case Write(i, bytes) => WriteOrdered(h, i, bytes, net);
    case End(i) => EndHead(h, i); EndOrdered(h, i, net);
    case _ => OtherOrdered(h, net);
  }

  lemma EndHead(h: H, i: nat)
    requires h.port != [] && h.port[0] == End(i) && ClientsOk([End(i)] + Of(h.port[1..], Client), h.transfers)
    ensures i < |h.transfers| && h.transfers[i].state == Queued
  {
    assert ([End(i)] + Of(h.port[1..], Client))[0] == End(i);
  }

  lemma FinishOrdered(h: H, i: nat, net: Net)
    requires PtrOk(h) && h.port != [] && h.port[0] == SendNextBuffer(i) && i < |h.transfers|
    requires h.transfers[i].buffers == []
    ensures Ordered(h, Handle(h, net))
  {
    hide PtrOk, Ordered, HasInternal;
    SetOrdered(h, Handle(h, net), i);
  }

  lemma HandleOrdered(h: H, ph: Phase, net: Net)
    requires PtrOk(h) && h.port != [] && Inv(h, ph) && Orderly(h, Step(net))
    ensures Ordered(h, Handle(h, net))
  {
    hide Inv, Ordered, Kept, PtrOk, DoSendNextBuffer, DoContinueBuffer, DoBufferFinished, DoFileDone, DoTimerExpired,
         DoSendNextFile, DoSerialReply, DoFindOutput, DoWrite, DoEnd, Abort;
    HeadPoints(h);
    var m, h1 := h.port[0], Rest1(h);
    match m
    case SendNextFile => PickOrdered(h, net);
    case SendNextBuffer(i) =>
      if h.transfers[i].buffers != [] {
        KeptActive(h1, m, net);
        KeptOrdered(h, Handle(h, net), i);
      } else {
        FinishOrdered(h, i, net);
      }
    case ContinueBuffer(_) => KeptActive(h1, m, net); KeptOrdered(h, Handle(h, net), m.ftx);
    case BufferFinished(_) => KeptActive(h1, m, net); KeptOrdered(h, Handle(h, net), m.ftx);
    case FileFinished(i) => KeptDone(h1, i); KeptOrdered(h, Handle(h, net), i);
    case FileFailed(i) => KeptDone(h1, i); KeptOrdered(h, Handle(h, net), i);
    case TimerReply => KeptTimer(h1); KeptOrdered(h, Handle(h, net), TimedOut(h1));
    case SerialReply => SerialOrdered(h, net);
    case FindOutput(_) => ClientOrdered(h, ph, net);
    case Write(_, _) => ClientOrdered(h, ph, net);
    case End(_) => ClientOrdered(h, ph, net);
    case Die => ClientOrdered(h, ph, net);
    case Other => ClientOrdered(h, ph, net);
  }

  // ---------------------------------------------------------------------------------------
  // Counting
  // ---------------------------------------------------------------------------------------

  /** How many of the first k files have not been started. */
  function Ahead(ts: seq<Ftx>, k: nat): nat
    requires k <= |ts|
  {
    if k == 0 then 0 else (if Waiting(ts[k - 1]) then 1 else 0) + Ahead(ts, k - 1)
  }

  lemma {:induction false} AheadBound(ts: seq<Ftx>, k: nat)
    requires k <= |ts|
    ensures Ahead(ts, k) <= k
  {
    if k > 0 {
      AheadBound(ts, k - 1);
    }
  }

  lemma {:induction false} AheadForward(a: seq<Ftx>, b: seq<Ftx>, k: nat)
    requires k <= |a| && Forward(a, b)
    ensures Ahead(b, k) <= Ahead(a, k)
    ensures forall i :: 0 <= i < k && Waiting(a[i]) && !Waiting(b[i]) ==> Ahead(b, k) < Ahead(a, k)
  {
    if k > 0 {
      AheadForward(a, b, k - 1);
    }
  }

  /** One move starts at most one file that was ahead of k, and then one fewer is left ahead. */
  lemma MoveAhead(h: H, ph: Phase, mv: Move, k: nat)
    requires PtrOk(h) && Possible(h, mv) && Inv(h, ph) && Orderly(h, mv)
    requires k < |h.transfers| && h.transfers[k].state == Ready
    ensures Forward(h.transfers, Apply(h, mv).transfers) && k < |Apply(h, mv).transfers|
    ensures Apply(h, mv).transfers[k].state == Ready ==>
              |Apply(h, mv).started| + Ahead(Apply(h, mv).transfers, k) <= |h.started| + Ahead(h.transfers, k)
  {
    hide Inv, PtrOk, Handle;
    if mv.Step? {
      HandleOrdered(h, ph, mv.net);
    }
    AheadForward(h.transfers, Apply(h, mv).transfers, k);
  }

  lemma {:induction false} ForwardRun(h: H, ph: Phase, moves: seq<Move>)
    requires PtrOk(h) && PossibleRun(h, moves) && Throughout(h, moves, Orderly) && Fine(h, ph)
    ensures Forward(h.transfers, After(h, moves).transfers)
    decreases |moves|
  {
    hide Inv, PtrOk, Apply, NextPhase;
    if moves != [] {
      var mv, r := moves[0], Apply(h, moves[0]);
      ApplyInv(h, ph, mv);
      MoveForward(h, ph, mv);
      ForwardRun(r, PhaseAfter(h, ph, mv), moves[1..]);
      ForwardTwice(h.transfers, r.transfers, After(h, moves).transfers);
    }
  }

  lemma MoveForward(h: H, ph: Phase, mv: Move)
    requires PtrOk(h) && Possible(h, mv) && Inv(h, ph) && Orderly(h, mv)
    ensures Forward(h.transfers, Apply(h, mv).transfers)
  {
    hide Inv, PtrOk, Handle;
    if mv.Step? {
      HandleOrdered(h, ph, mv.net);
    }
  }

  lemma ForwardTwice(a: seq<Ftx>, b: seq<Ftx>, c: seq<Ftx>)
    requires Forward(a, b) && Forward(b, c)
    ensures Forward(a, c)
  {
  }

  /** Bounded overtaking. While file k is ready, from any reachable state on, at most as many other
      files are started as files before it in the list were not started yet; so at most k. */
  lemma {:induction false} BoundedOvertaking(h: H, ph: Phase, moves: seq<Move>, k: nat)
    requires PtrOk(h) && PossibleRun(h, moves) && Throughout(h, moves, Orderly) && Fine(h, ph)
    requires k < |h.transfers| && h.transfers[k].state == Ready
    requires k < |After(h, moves).transfers| && After(h, moves).transfers[k].state == Ready
    ensures |After(h, moves).started| <= |h.started| + Ahead(h.transfers, k) <= |h.started| + k
    decreases |moves|
  {
    hide Inv, PtrOk, Apply, NextPhase;
    AheadBound(h.transfers, k);
    if moves != [] {
      var mv, r := moves[0], Apply(h, moves[0]);
      ApplyInv(h, ph, mv);
      MoveAhead(h, ph, mv, k);
      ForwardRun(r, PhaseAfter(h, ph, mv), moves[1..]);
      assert r.transfers[k].state == Ready;
      BoundedOvertaking(r, PhaseAfter(h, ph, mv), moves[1..], k);
    }
  }

  /** The same for runs from the start of the handler, cut where file k becomes ready. */
  lemma BoundedOvertakingFromStart(h: H, before: seq<Move>, moves: seq<Move>, k: nat)
    requires Initial(h) && PossibleRun(h, before) && Throughout(h, before, Orderly)
    requires PossibleRun(After(h, before), moves) && Throughout(After(h, before), moves, Orderly)
    requires k < |After(h, before).transfers| && After(h, before).transfers[k].state == Ready
    requires k < |After(After(h, before), moves).transfers|
    requires After(After(h, before), moves).transfers[k].state == Ready
    ensures |After(After(h, before), moves).started| <= |After(h, before).started| + k
  {
    hide After, Inv;
    InitInv(h);
    InvFine(h, Rest);
    var ph := RunInv(h, Rest, before);
    BoundedOvertaking(After(h, before), ph, moves, k);
  }
}

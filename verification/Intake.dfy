/** What clients hand in, told from the messages a run handles alone, and that the queue of files is
    exactly that. */
module Intake {
  import opened Bytes
  import opened Messages
  import opened Packets
  import opened Paths
  import opened Engine
  import opened Files
  import opened Ownership
  import opened Effects
  import opened Overtaking

  /** A message that was handled, and whether there was memory for it. */
  datatype Dealt = Dealt(msg: Msg<nat>, mem: bool)

  /** What a run has handled, in order. */
  ghost function Log(h: H, moves: seq<Move>): seq<Dealt>
    requires PtrOk(h) && PossibleRun(h, moves)
    decreases |moves|
  {
    if moves == [] then []
    else DealtIn(h, moves[0]) + Log(Apply(h, moves[0]), moves[1..])
  }

  function DealtIn(h: H, mv: Move): seq<Dealt>
    requires Possible(h, mv)
  {
    if mv.Step? then [Dealt(h.port[0], mv.net.mem)] else []
  }

  /** The buffers written to file i for which there was memory. */
  function BytesFor(log: seq<Dealt>, i: nat): seq<seq<byte>> {
    if log == [] then []
    else
      (match log[0].msg
       case Write(j, bytes) => if j == i && log[0].mem then [bytes] else []
       case _ => []) + BytesFor(log[1..], i)
  }

  /** The paths of the files opened with memory for them. */
  function PathsIn(log: seq<Dealt>): seq<CString> {
    if log == [] then []
    else
      (match log[0].msg
       case FindOutput(path) => if log[0].mem then [path] else []
       case _ => []) + PathsIn(log[1..])
  }

  /** The name of a file opened by a path: at most 255 characters of its last part. */
  function NameOf(path: CString): seq<byte> {
    var name := NamePart(path);
    if |name| <= 255 then name else name[..255]
  }

  // ---------------------------------------------------------------------------------------
  // One pass
  // ---------------------------------------------------------------------------------------

  /** The list from a to b: the files stay what they are, but for the bytes written to file i, if any. */
  predicate Filled(a: seq<Ftx>, b: seq<Ftx>, log: seq<Dealt>) {
    && |b| == |a| + |PathsIn(log)|
    && (forall j :: 0 <= j < |a| ==> b[j].name == a[j].name && b[j].writes == a[j].writes + BytesFor(log, j))
    && (forall j :: |a| <= j < |b| ==> b[j].name == NameOf(PathsIn(log)[j - |a|]) && b[j].writes == BytesFor(log, j))
  }

  /** A message that is neither a write nor an open hands nothing in. */
  lemma NothingIn(a: seq<Ftx>, b: seq<Ftx>, d: Dealt)
    requires |a| == |b| && !(d.msg.Write? && d.mem) && !(d.msg.FindOutput? && d.mem)
    requires forall j :: 0 <= j < |a| ==> b[j].name == a[j].name && b[j].writes == a[j].writes
    ensures Filled(a, b, [d])
  {
    assert [d][1..] == [];
  }

  lemma KeptNothing(h: H, r: H, i: nat, d: Dealt)
    requires Kept(h, r, i) && !(d.msg.Write? && d.mem) && !(d.msg.FindOutput? && d.mem)
    ensures Filled(h.transfers, r.transfers, [d])
  {
    hide Filled;
    NothingIn(h.transfers, r.transfers, d);
  }

  lemma WriteIn(h: H, i: nat, bytes: seq<byte>)
    requires i < |h.transfers|
    ensures Filled(h.transfers, DoWrite(h, i, bytes, true).transfers, [Dealt(Write(i, bytes), true)])
  {
    var d := Dealt(Write(i, bytes), true);
    assert [d][1..] == [];
    forall j: nat
      ensures BytesFor([d], j) == if j == i then [bytes] else []
    {
    }
  }

  lemma MoreIn(a: seq<Ftx>, t: Ftx, path: CString)
    requires t.name == NameOf(path) && t.writes == []
    ensures Filled(a, a + [t], [Dealt(FindOutput(path), true)])
  {
    hide NameOf;
    var d := Dealt(FindOutput(path), true);
    assert [d][1..] == [];
    assert PathsIn([d]) == [path];
    forall j: nat
      ensures BytesFor([d], j) == []
    {
    }
  }

  lemma OpenIn(h: H, path: CString)
    ensures Filled(h.transfers, DoFindOutput(h, path, true).transfers, [Dealt(FindOutput(path), true)])
  {
    hide NewFtx, Filled, NameOf;
    NewIs(path);
    MoreIn(h.transfers, NewFtx(path), path);
  }

  lemma NewIs(path: CString)
    ensures NewFtx(path).name == NameOf(path) && NewFtx(path).writes == []
  {
    hide NamePart;
  }

  lemma SetIn(a: seq<Ftx>, i: nat, t: Ftx, d: Dealt)
    requires i < |a| && t.name == a[i].name && t.writes == a[i].writes
    requires !(d.msg.Write? && d.mem) && !(d.msg.FindOutput? && d.mem)
    ensures Filled(a, a[i := t], [d])
  {
    hide Filled;
    NothingIn(a, a[i := t], d);
  }

  lemma WriteLost(h: H, i: nat, bytes: seq<byte>)
    requires i < |h.transfers|
    ensures Filled(h.transfers, DoWrite(h, i, bytes, false).transfers, [Dealt(Write(i, bytes), false)])
  {
    hide Filled, HasInternal;
    SetIn(h.transfers, i, h.transfers[i].(state := Error, error := ERROR_NO_FREE_STORE), Dealt(Write(i, bytes), false));
  }

  lemma EndIn(h: H, i: nat, mem: bool)
    requires i < |h.transfers|
    ensures Filled(h.transfers, DoEnd(h, i).transfers, [Dealt(End(i), mem)])
  {
    hide Filled, HasInternal;
    SetIn(h.transfers, i, h.transfers[i].(state := Ready), Dealt(End(i), mem));
  }

  lemma ClientIn(h: H, net: Net)
    requires PtrOk(h) && h.port != [] && KindOf(h.port[0]) == Client
    ensures Filled(h.transfers, Handle(h, net).transfers, [Dealt(h.port[0], net.mem)])
  {
    hide Filled, PtrOk, Abort, DoWrite, DoEnd;
    HeadPoints(h);
    var h1, ts, d := Rest1(h), h.transfers, Dealt(h.port[0], net.mem);
    match h.port[0]
    case Write(i, bytes) =>
      if net.mem {
        WriteIn(h1, i, bytes);
      } else {
        WriteLost(h1, i, bytes);
      }
    case FindOutput(path) =>
      if net.mem {
        OpenIn(h1, path);
      } else {
        NothingIn(ts, ts, d);
      }
    case End(i) => EndIn(h1, i, net.mem);
    case Die => AbortedFiles(h1); NothingIn(ts, ts, d);
    case Other => NothingIn(ts, ts, d);
  }

  lemma AbortedFiles(h: H)
    ensures Abort(h).transfers == h.transfers
  {
    hide Without;
  }

  lemma PickKept(h: H, net: Net)
    requires PtrOk(h) && h.port != [] && h.port[0] == SendNextFile
    ensures var i := if Starts(h).Some? then Starts(h).value else 0;
            && |Handle(h, net).transfers| == |h.transfers|
            && forall j :: 0 <= j < |h.transfers| ==>
                 && Handle(h, net).transfers[j].name == h.transfers[j].name
                 && Handle(h, net).transfers[j].writes == h.transfers[j].writes
                 && (j != i ==> Handle(h, net).transfers[j] == h.transfers[j])
  {
    hide PtrOk, Send, HasInternal;
    match Starts(h)
    case None =>
    case Some(i) => KeptSend(Picked(Rest1(h), i), i, Wrq(h.transfers[i].name), WrqSent, net);
  }

  lemma SerialIn(h: H, net: Net)
    requires PtrOk(h) && h.port != [] && h.port[0] == SerialReply
    ensures Filled(h.transfers, Handle(h, net).transfers, [Dealt(h.port[0], net.mem)])
  {
    hide Kept, Filled, DoWriteReturn, DoReadReturn, Acknowledges, PtrOk;
    HeadPoints(h);
    ArgPoints(h);
    var h1, r, d := Rest1(h), Handle(h, net), Dealt(h.port[0], net.mem);
    if h.ioArg.None? || h.ioType == NoIo {
      NothingIn(h.transfers, r.transfers, d);
    } else if h.ioType == WriteReturn {
      KeptWriteReturn(h1, h.ioArg.value, net.mem);
      KeptNothing(h1, r, h.ioArg.value, d);
    } else if HasData(h.serial) && Acknowledges(Opened(h1, h.ioArg.value, net.mem), h.ioArg.value) {
      AckEffect(h1, h.ioArg.value, net.mem);
      AckedIn(h1, Overlay(h.tftppkt, h.serial.reply.bytes), h.ioArg.value, d);
    } else {
      KeptReadReturn(h1, h.ioArg.value, net.mem);
      KeptNothing(h1, r, h.ioArg.value, d);
    }
  }

  lemma AckedIn(h: H, tftppkt: seq<byte>, i: nat, d: Dealt)
    requires i < |h.transfers| && |tftppkt| >= 4 && Acknowledges(h.(tftppkt := tftppkt), i) && d.msg == SerialReply
    ensures Filled(h.transfers, h.transfers[i := Acked(h.transfers[i])], [d])
  {
    hide GetOpcode, GetBlknum, InBounds, Chunk, Filled;
    SetIn(h.transfers, i, Acked(h.transfers[i]), d);
  }

  lemma PassIn(h: H, net: Net)
    requires PtrOk(h) && h.port != []
    ensures Filled(h.transfers, Handle(h, net).transfers, [Dealt(h.port[0], net.mem)])
  {
    hide Filled, Kept, PtrOk, DoSendNextBuffer, DoContinueBuffer, DoBufferFinished, DoFileDone, DoTimerExpired,
         DoSendNextFile, DoSerialReply, DoFindOutput, DoWrite, DoEnd, Abort;
    HeadPoints(h);
    var m, h1, r, d := h.port[0], Rest1(h), Handle(h, net), Dealt(h.port[0], net.mem);
    match m
    case SendNextFile => PickKept(h, net); NothingIn(h.transfers, r.transfers, d);
    case SendNextBuffer(i) =>
      if Finishing(h) {
        FinishEffect(h, net);
        SetIn(h.transfers, i, h.transfers[i].(state := Finished), d);
      } else {
        KeptActive(h1, m, net);
        KeptNothing(h1, r, i, d);
      }
    case ContinueBuffer(i) => KeptActive(h1, m, net); KeptNothing(h1, r, i, d);
    case BufferFinished(i) => KeptActive(h1, m, net); KeptNothing(h1, r, i, d);
    case FileFinished(i) => KeptDone(h1, i); KeptNothing(h1, r, i, d);
    case FileFailed(i) => KeptDone(h1, i); KeptNothing(h1, r, i, d);
    case TimerReply => KeptTimer(h1); KeptNothing(h1, r, TimedOut(h1), d);
    case SerialReply => SerialIn(h, net);
    case _ => ClientIn(h, net);
  }

  // ---------------------------------------------------------------------------------------
  // Runs
  // ---------------------------------------------------------------------------------------

  lemma {:induction false} LogJoin(a: seq<Dealt>, b: seq<Dealt>)
    ensures PathsIn(a + b) == PathsIn(a) + PathsIn(b)
    ensures forall i :: BytesFor(a + b, i) == BytesFor(a, i) + BytesFor(b, i)
  {
    if a == [] {
      assert a + b == b;
    } else {
      assert (a + b)[1..] == a[1..] + b;
      LogJoin(a[1..], b);
    }
  }

  lemma FilledTwice(a: seq<Ftx>, b: seq<Ftx>, c: seq<Ftx>, d: seq<Dealt>, more: seq<Dealt>)
    requires Filled(a, b, d) && Filled(b, c, more)
    requires forall j: nat :: j >= |a| && j >= |b| ==> BytesFor(d, j) == []
    ensures Filled(a, c, d + more)
  {
    hide BytesFor, PathsIn, NameOf;
    LogJoin(d, more);
  }

  lemma NotYet(h: H, mv: Move)
    requires PtrOk(h) && Possible(h, mv)
    ensures forall j: nat :: j >= |h.transfers| ==> BytesFor(DealtIn(h, mv), j) == []
  {
    if mv.Step? {
      HeadPoints(h);
      assert DealtIn(h, mv)[1..] == [];
    }
  }

  lemma MoveIn(h: H, mv: Move)
    requires PtrOk(h) && Possible(h, mv)
    ensures Filled(h.transfers, Apply(h, mv).transfers, DealtIn(h, mv))
  {
    hide PtrOk, Handle;
    if mv.Step? {
      PassIn(h, mv.net);
    }
  }

  lemma {:induction false} RunIn(h: H, moves: seq<Move>)
    requires PtrOk(h) && PossibleRun(h, moves)
    ensures Filled(h.transfers, After(h, moves).transfers, Log(h, moves))
    decreases |moves|
  {
    hide PtrOk, Apply, DealtIn, Possible;
    if moves == [] {
      hide After, Log, PossibleRun;
    } else {
      var next := Apply(h, moves[0]);
      MoveIn(h, moves[0]);
      NotYet(h, moves[0]);
      RunIn(next, moves[1..]);
      FilledTwice(h.transfers, next.transfers, After(h, moves).transfers, DealtIn(h, moves[0]), Log(next, moves[1..]));
    }
  }

  /** In any run at all, the files of the list are those opened with memory for them, in order, each under
      the name of its path; and the bytes of file i are those of the writes to it for which there
      was memory, in order. */
  lemma HandedIn(h: H, moves: seq<Move>)
    requires Initial(h) && PossibleRun(h, moves)
    ensures var ts, log := After(h, moves).transfers, Log(h, moves);
            && |ts| == |PathsIn(log)|
            && forall i :: 0 <= i < |ts| ==>
                 ts[i].name == NameOf(PathsIn(log)[i]) && ts[i].writes == BytesFor(log, i)
  {
    hide After, Log, BytesFor, PathsIn, NameOf, Filled, PossibleRun;
    RunIn(h, moves);
    FilledAll(After(h, moves).transfers, Log(h, moves));
  }

  lemma FilledAll(b: seq<Ftx>, log: seq<Dealt>)
    requires Filled([], b, log)
    ensures |b| == |PathsIn(log)|
    ensures forall i :: 0 <= i < |b| ==> b[i].name == NameOf(PathsIn(log)[i]) && b[i].writes == BytesFor(log, i)
  {
    hide BytesFor, PathsIn, NameOf;
  }

  // ---------------------------------------------------------------------------------------
  // The files that were started
  // ---------------------------------------------------------------------------------------

  /** The first file that was ready and is not any more. */
  function LeftReady(a: seq<Ftx>, b: seq<Ftx>, from: nat): seq<nat>
    requires from <= |a| <= |b|
    decreases |a| - from
  {
    if from == |a| then []
    else if a[from].state == Ready && b[from].state != Ready then [from]
    else LeftReady(a, b, from + 1)
  }

  /** The files a run takes up: those that stop being ready when SEND_NEXT_FILE is handled. */
  ghost function TakenUp(h: H, moves: seq<Move>): seq<nat>
    requires PtrOk(h) && PossibleRun(h, moves)
    decreases |moves|
  {
    if moves == [] then [] else TakenIn(h, moves[0]) + TakenUp(Apply(h, moves[0]), moves[1..])
  }

  function TakenIn(h: H, mv: Move): seq<nat>
    requires PtrOk(h) && Possible(h, mv)
  {
    var r := Apply(h, mv);
    if !mv.Step? || h.port[0] != SendNextFile || |h.transfers| > |r.transfers| then []
    else LeftReady(h.transfers, r.transfers, 0)
  }

  lemma {:induction false} TakenAt(a: seq<Ftx>, b: seq<Ftx>, from: nat, i: nat)
    requires from <= i < |a| <= |b| && a[i].state == Ready && b[i].state != Ready
    requires forall j :: from <= j < i ==> a[j].state != Ready
    ensures LeftReady(a, b, from) == [i]
    decreases i - from
  {
    if from < i {
      TakenAt(a, b, from + 1, i);
    }
  }

  lemma {:induction false} NoneTaken(a: seq<Ftx>, b: seq<Ftx>, from: nat)
    requires from <= |a| <= |b| && forall j :: 0 <= j < |a| ==> b[j].state == a[j].state
    ensures LeftReady(a, b, from) == []
    decreases |a| - from
  {
    if from < |a| {
      NoneTaken(a, b, from + 1);
    }
  }

  lemma NonePicked(h: H, net: Net)
    requires PtrOk(h) && h.port != [] && h.port[0] == SendNextFile && Starts(h) == None
    ensures Handle(h, net).transfers == h.transfers
  {
    hide PtrOk, Send;
  }

  lemma PassTakes(h: H, ph: Phase, net: Net)
    requires PtrOk(h) && h.port != [] && h.running && Inv(h, ph) && Orderly(h, Step(net))
    ensures Handle(h, net).started == h.started + TakenIn(h, Step(net))
  {
    hide Inv, PtrOk, Handle, Orderly, Forward, NameOf, PathsIn, BytesFor;
    HandleOrdered(h, ph, net);
    PassIn(h, net);
    var a, b := h.transfers, Handle(h, net).transfers;
    match Starts(h)
    case Some(i) => TakenAt(a, b, 0, i);
    case None =>
      if h.port[0] == SendNextFile {
        NonePicked(h, net);
        NoneTaken(a, b, 0);
      }
  }

  lemma MoveTakes(h: H, ph: Phase, mv: Move)
    requires PtrOk(h) && Possible(h, mv) && Inv(h, ph) && Orderly(h, mv)
    ensures Apply(h, mv).started == h.started + TakenIn(h, mv)
  {
    hide Inv, PtrOk, Handle, Orderly;
    if mv.Step? {
      PassTakes(h, ph, mv.net);
    }
  }

  lemma {:induction false} RunTakes(h: H, ph: Phase, moves: seq<Move>)
    requires PtrOk(h) && PossibleRun(h, moves) && Fine(h, ph) && Throughout(h, moves, Orderly)
    ensures After(h, moves).started == h.started + TakenUp(h, moves)
    decreases |moves|
  {
    hide Inv, PtrOk, Apply, TakenIn, Orderly, NextPhase;
    if moves != [] {
      MoveTakes(h, ph, moves[0]);
      ApplyInv(h, ph, moves[0]);
      RunTakes(Apply(h, moves[0]), PhaseAfter(h, ph, moves[0]), moves[1..]);
    }
  }

  /** In orderly runs the files recorded as started are those that stop being ready when SEND_NEXT_FILE is
      handled. */
  lemma StartedAreTaken(h: H, moves: seq<Move>)
    requires Initial(h) && PossibleRun(h, moves) && Throughout(h, moves, Orderly)
    ensures After(h, moves).started == TakenUp(h, moves)
  {
    hide After, Inv, TakenUp;
    InitInv(h);
    InvFine(h, Rest);
    RunTakes(h, Rest, moves);
  }

  /** Told from the states alone: a file that becomes ready at position k sees at most k others taken up. */
  lemma FewTakenBefore(h: H, before: seq<Move>, moves: seq<Move>, k: nat)
    requires Initial(h) && PossibleRun(h, before) && Throughout(h, before, Orderly)
    requires PossibleRun(After(h, before), moves) && Throughout(After(h, before), moves, Orderly)
    requires k < |After(h, before).transfers| && After(h, before).transfers[k].state == Ready
    requires k < |After(After(h, before), moves).transfers|
    requires After(After(h, before), moves).transfers[k].state == Ready
    ensures |TakenUp(After(h, before), moves)| <= k
  {
    hide After, Inv, TakenUp;
    InitInv(h);
    InvFine(h, Rest);
    var ph := RunInv(h, Rest, before);
    BoundedOvertakingFromStart(h, before, moves, k);
    RunTakes(After(h, before), ph, moves);
  }
}

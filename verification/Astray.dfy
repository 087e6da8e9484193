/** A run in which a lost write request makes the server store the bytes of one file in the session of
    another: the first file times out before the answer to its request is read, the request of the second
    is lost, and the second takes the answer that is left over for its own. */
module Astray {
  import opened Bytes
  import opened Messages
  import opened Packets
  import opened Engine
  import opened Ownership
  import opened Server
  import opened Untimely
  import opened Intake
  import opened Losses

  // ---------------------------------------------------------------------------------------
  // Runs, put together
  // ---------------------------------------------------------------------------------------

  /** Some run with losses leads from s to r. */
  ghost predicate Yields(s: Lossy, r: Lossy) {
    exists changes :: LossyRun(s, changes) && Afterwards(s, changes) == r
  }

  lemma YieldsSelf(s: Lossy)
    ensures Yields(s, s)
  {
    assert LossyRun(s, []) && Afterwards(s, []) == s;
  }

  lemma YieldsOn(s: Lossy, c: Change, r: Lossy)
    requires CanChange(s, c) && Yields(Changed(s, c), r)
    ensures Yields(s, r)
  {
    hide CanChange, Changed;
    var changes :| LossyRun(Changed(s, c), changes) && Afterwards(Changed(s, c), changes) == r;
    assert ([c] + changes)[1..] == changes;
    assert LossyRun(s, [c] + changes) && Afterwards(s, [c] + changes) == r;
  }

  /** If every frame is lost, the server stays as it is. */
  lemma {:induction false} AllLostThen(s: Lossy, moves: seq<Move>, a: H, r: Lossy)
    requires PtrOk(s.h) && PossibleRun(s.h, moves) && Throughout(s.h, moves, Orderly) && After(s.h, moves) == a
    requires forall missed :: Yields(Lossy(a, s.sessions, s.owners, missed), r)
    ensures Yields(s, r)
    decreases |moves|
  {
    hide PtrOk, Apply, Orderly, Yields, Changed;
    if moves == [] {
      assert s == Lossy(a, s.sessions, s.owners, s.missed);
    } else {
      LostKeeps(s, moves[0]);
      AllLostThen(Changed(s, Change(moves[0], true)), moves[1..], a, r);
      YieldsOn(s, Change(moves[0], true), r);
    }
  }

  lemma LostKeeps(s: Lossy, mv: Move)
    requires PtrOk(s.h) && Possible(s.h, mv) && Orderly(s.h, mv)
    ensures CanChange(s, Change(mv, true))
    ensures var s1 := Changed(s, Change(mv, true));
            s1.h == Apply(s.h, mv) && s1.sessions == s.sessions && s1.owners == s.owners
  {
    hide PtrOk, Apply, Orderly;
  }

  // ---------------------------------------------------------------------------------------
  // The states of the run
  // ---------------------------------------------------------------------------------------

  const ONE: seq<byte> := [7]

  function Follower(state: FileState, blknum: nat): Ftx {
    NewFtx(PATH).(state := state, blknum := blknum, buffers := [FreshBuf(ONE)], writes := [ONE])
  }

  /** The first file is in flight. */
  function Early(pkt: seq<byte>, port: seq<Msg<nat>>, ioType: IoType, serial: Request<Packet, Extracted>,
                 timer: Countdown): H {
    H(port, true, true, [File(WrqSent, 0), Follower(Queued, 0)], ioType, Some(0), Some(0), serial, timer, pkt, [0],
      false, false, false, false)
  }

  /** It has timed out. */
  function Middle(pkt: seq<byte>, port: seq<Msg<nat>>, state: FileState, local: Option<nat>): H {
    H(port, true, false, [File(Error, ERROR_IO_TIMEOUT), Follower(state, 0)], ReadReturn, Some(0), local, Idle, Stopped,
      pkt, [0], false, false, false, false)
  }

  /** The second file is in flight. */
  function Late(pkt: seq<byte>, port: seq<Msg<nat>>, ioType: IoType, serial: Request<Packet, Extracted>,
                timer: Countdown, state: FileState, blknum: nat): H {
    H(port, true, true, [File(Error, ERROR_IO_TIMEOUT), Follower(state, blknum)], ioType, Some(1), Some(1), serial,
      timer, pkt, [0, 1], false, false, false, false)
  }

  // ---------------------------------------------------------------------------------------
  // Its passes
  // ---------------------------------------------------------------------------------------

  lemma Writing(p: seq<byte>)
    requires |p| >= 4
    ensures var h := Sending(p, [Write(1, ONE)], Queued, 0, Running);
            PtrOk(h) && Handle(h, FULL) == Early(p, [], WriteReturn, Pending(ASKED), Running)
  {
    var h := Sending(p, [Write(1, ONE)], Queued, 0, Running);
    assert h.port[1..] == [];
    assert [] + [FreshBuf(ONE)] == [FreshBuf(ONE)] && [] + [ONE] == [ONE];
    assert h.transfers[1 := Follower(Queued, 0)] == [File(WrqSent, 0), Follower(Queued, 0)];
  }

  lemma TimingOutFirst(p: seq<byte>)
    requires |p| >= 4
    ensures var h := Early(p, [TimerReply], ReadReturn, Pending(OpRead), Fired);
            PtrOk(h) && Handle(h, FULL) == Middle(p, [FileFailed(0)], Queued, Some(0))
  {
    var h := Early(p, [TimerReply], ReadReturn, Pending(OpRead), Fired);
    assert h.port[1..] == [];
    assert h.transfers[0 := File(Error, ERROR_IO_TIMEOUT)] == [File(Error, ERROR_IO_TIMEOUT), Follower(Queued, 0)];
  }

  lemma Discarding(p: seq<byte>)
    requires |p| >= 4
    ensures var h := Middle(p, [FileFailed(0)], Queued, Some(0));
            PtrOk(h) && Handle(h, FULL) == Middle(p, [SendNextFile], Queued, Some(0))
  {
    var h := Middle(p, [FileFailed(0)], Queued, Some(0));
    assert h.port[1..] == [];
    assert h.transfers[0].dropped + Unacked(h.transfers[0].buffers) == [];
    assert h.transfers[0 := h.transfers[0]] == h.transfers;
  }

  lemma Resting(p: seq<byte>)
    requires |p| >= 4
    ensures var h := Middle(p, [SendNextFile], Queued, Some(0));
            PtrOk(h) && Handle(h, FULL) == Middle(p, [], Queued, None)
  {
    var h := Middle(p, [SendNextFile], Queued, Some(0));
    assert h.port[1..] == [];
  }

  lemma ClosingLate(p: seq<byte>)
    requires |p| >= 4
    ensures var h := Middle(p, [End(1)], Queued, None);
            PtrOk(h) && Handle(h, FULL) == Middle(p, [SendNextFile], Ready, Some(1))
  {
    var h := Middle(p, [End(1)], Queued, None);
    assert h.port[1..] == [];
    assert h.transfers[1 := Follower(Ready, 0)] == [File(Error, ERROR_IO_TIMEOUT), Follower(Ready, 0)];
  }

  lemma PickingLate(p: seq<byte>)
    requires |p| >= 4
    ensures var h := Middle(p, [SendNextFile], Ready, Some(1));
            PtrOk(h) && Handle(h, FULL) == Late(p, [], WriteReturn, Pending(ASKED), Running, WrqSent, 0)
  {
    var h := Middle(p, [SendNextFile], Ready, Some(1));
    assert h.port[1..] == [] && NextReady(h.transfers, 1) == Some(1) && NextReady(h.transfers, 0) == Some(1);
    PathName();
    assert [0] + [1] == [0, 1];
    assert h.transfers[1 := Follower(WrqSent, 0)] == [File(Error, ERROR_IO_TIMEOUT), Follower(WrqSent, 0)];
  }

  lemma AckShown(p: seq<byte>)
    requires |p| >= 4
    ensures |Overlay(p, AckBytes(0))| >= 4 && GetOpcode(Overlay(p, AckBytes(0))) == OP_ACK
  {
  }

  lemma Misled(p: seq<byte>)
    requires |p| >= 4
    ensures var h := Late(p, [SerialReply], ReadReturn, Replied(OpRead, 0, Payload(AckBytes(0))), Running, WrqSent, 0);
            && PtrOk(h)
            && Handle(h, FULL) ==
                 Late(Overlay(p, AckBytes(0)), [SendNextBuffer(1)], ReadReturn, Idle, Stopped, WrqSent, 0)
  {
    hide GetOpcode, GetBlknum, Overlay, AckBytes, File, DoAcked, Fail;
    var h := Late(p, [SerialReply], ReadReturn, Replied(OpRead, 0, Payload(AckBytes(0))), Running, WrqSent, 0);
    assert h.port[1..] == [];
    AckShown(p);
  }

  lemma SendingLate(p: seq<byte>)
    requires |p| >= 4
    ensures var h := Late(p, [SendNextBuffer(1)], ReadReturn, Idle, Stopped, WrqSent, 0);
            && PtrOk(h)
            && Handle(h, FULL) == Late(p, [], WriteReturn, Pending(OpWrite(Data(1, ONE))), Running, DataSent, 1)
  {
    var h := Late(p, [SendNextBuffer(1)], ReadReturn, Idle, Stopped, WrqSent, 0);
    assert h.port[1..] == [];
    assert Chunk(FreshBuf(ONE)) == ONE;
    assert h.transfers[1 := Follower(DataSent, 1)] == [File(Error, ERROR_IO_TIMEOUT), Follower(DataSent, 1)];
  }

  // ---------------------------------------------------------------------------------------
  // The run
  // ---------------------------------------------------------------------------------------

  lemma Steps(s: Lossy, next: H, r: Lossy)
    requires PtrOk(s.h) && s.h.port != [] && s.h.running && Handle(s.h, FULL) == next && Yields(s.(h := next), r)
    ensures Yields(s, r)
  {
    hide PtrOk, Handle, Yields;
    YieldsOn(s, Change(Step(FULL), false), r);
  }

  const OPENED: seq<Session> := [Session(NAME, [], false, [])]
  const MIXED: seq<Session> := [Session(NAME, [ONE], true, [Data(1, ONE)])]

  function Mixed(p: seq<byte>): Lossy {
    Lossy(Late(p, [SerialReply], WriteReturn, Replied(OpWrite(Data(1, ONE)), 0, Payload([])), Running, DataSent, 1),
          MIXED, [0], true)
  }

  lemma LatePoints(p: seq<byte>, port: seq<Msg<nat>>, ioType: IoType, serial: Request<Packet, Extracted>,
                   timer: Countdown, state: FileState, blknum: nat)
    requires |p| >= 4 && forall m :: m in port ==> Points(m, 2)
    ensures PtrOk(Late(p, port, ioType, serial, timer, state, blknum))
  {
  }

  lemma EarlyPoints(p: seq<byte>, port: seq<Msg<nat>>, ioType: IoType, serial: Request<Packet, Extracted>,
                    timer: Countdown)
    requires |p| >= 4 && forall m :: m in port ==> Points(m, 2)
    ensures PtrOk(Early(p, port, ioType, serial, timer))
  {
  }

  lemma MiddlePoints(p: seq<byte>)
    requires |p| >= 4
    ensures PtrOk(Middle(p, [], Queued, None)) && PtrOk(Middle(p, [End(1)], Queued, None))
  {
  }

  lemma DataStored(p: seq<byte>)
    requires |p| >= 4
    ensures var h := Late(p, [], WriteReturn, Pending(OpWrite(Data(1, ONE))), Running, DataSent, 1);
            var s := Lossy(h, OPENED, [0], true);
            CanChange(s, Change(WriteDone(0), false)) && Changed(s, Change(WriteDone(0), false)) == Mixed(p)
  {
    hide PtrOk, Deliver, FrameOf, TftpBytes, Follower, Serve;
    LatePoints(p, [], WriteReturn, Pending(OpWrite(Data(1, ONE))), Running, DataSent, 1);
    Delivered(Data(1, ONE));
    ServedMixed();
    var none: seq<Msg<nat>> := [];
    assert none + [SerialReply] == [SerialReply];
  }

  lemma ServedMixed()
    ensures Serve(OPENED, Data(1, ONE)) == MIXED
  {
    assert OPENED[0].got + [ONE] == [ONE] && OPENED[0].heard + [Data(1, ONE)] == [Data(1, ONE)];
    assert Wire(1) == 1;
  }

  lemma Requested(p: seq<byte>, missed: bool)
    requires |p| >= 4
    ensures var s := Lossy(Early(p, [], WriteReturn, Pending(ASKED), Running), [], [], missed);
            && CanChange(s, Change(WriteDone(0), false))
            && Changed(s, Change(WriteDone(0), false)) ==
                 Lossy(Early(p, [SerialReply], WriteReturn, DONE, Running), OPENED, [0], false)
  {
    hide PtrOk, Deliver, FrameOf, TftpBytes, Follower, File;
    EarlyPoints(p, [], WriteReturn, Pending(ASKED), Running);
    Delivered(Wrq(NAME));
    var none: seq<Msg<nat>> := [];
    assert none + [SerialReply] == [SerialReply];
    var no: seq<Session> := [];
    assert no + [Session(NAME, [], false, [])] == OPENED;
    var nobody: seq<nat> := [];
    assert nobody + [0] == [0];
  }

  /** From the moment the second file is ready. */
  lemma LatePart(p: seq<byte>)
    requires |p| >= 4
    ensures Yields(Lossy(Middle(p, [SendNextFile], Ready, Some(1)), OPENED, [0], false), Mixed(Overlay(p, AckBytes(0))))
  {
    hide PtrOk, Yields, Handle, Follower, Overlay, AckBytes, Changed;
    var q := Overlay(p, AckBytes(0));
    var r := Mixed(q);
    DataStored(q);
    YieldsSelf(r);
    YieldsOn(Lossy(Late(q, [], WriteReturn, Pending(OpWrite(Data(1, ONE))), Running, DataSent, 1), OPENED, [0], true),
             Change(WriteDone(0), false), r);
    SendingLate(q);
    Steps(Lossy(Late(q, [SendNextBuffer(1)], ReadReturn, Idle, Stopped, WrqSent, 0), OPENED, [0], true),
          Late(q, [], WriteReturn, Pending(OpWrite(Data(1, ONE))), Running, DataSent, 1), r);
    Misled(p);
    var read := Lossy(Late(p, [SerialReply], ReadReturn, Replied(OpRead, 0, Payload(AckBytes(0))), Running, WrqSent, 0),
                      OPENED, [0], true);
    Steps(read, Late(q, [SendNextBuffer(1)], ReadReturn, Idle, Stopped, WrqSent, 0), r);
    RequestLost(p, r);
  }

  /** The request of the second file is lost, and its answer is awaited. */
  lemma RequestLost(p: seq<byte>, r: Lossy)
    requires |p| >= 4
    requires var h := Late(p, [SerialReply], ReadReturn, Replied(OpRead, 0, Payload(AckBytes(0))), Running, WrqSent, 0);
             Yields(Lossy(h, OPENED, [0], true), r)
    ensures Yields(Lossy(Middle(p, [SendNextFile], Ready, Some(1)), OPENED, [0], false), r)
  {
    hide PtrOk, Yields, Handle, Follower, Overlay, AckBytes;
    var none: seq<Msg<nat>> := [];
    assert none + [SerialReply] == [SerialReply];
    var awaited := Late(p, [], ReadReturn, Pending(OpRead), Running, WrqSent, 0);
    LatePoints(p, [], ReadReturn, Pending(OpRead), Running, WrqSent, 0);
    YieldsOn(Lossy(awaited, OPENED, [0], true), Change(ReadDone(0, Payload(AckBytes(0))), false), r);
    var gone := Late(p, [SerialReply], WriteReturn, DONE, Running, WrqSent, 0);
    LatePoints(p, [SerialReply], WriteReturn, DONE, Running, WrqSent, 0);
    AnswerAwaited(gone);
    Steps(Lossy(gone, OPENED, [0], true), awaited, r);
    var asked := Late(p, [], WriteReturn, Pending(ASKED), Running, WrqSent, 0);
    LatePoints(p, [], WriteReturn, Pending(ASKED), Running, WrqSent, 0);
    YieldsOn(Lossy(asked, OPENED, [0], false), Change(WriteDone(0), true), r);
    PickingLate(p);
    Steps(Lossy(Middle(p, [SendNextFile], Ready, Some(1)), OPENED, [0], false), asked, r);
  }

  /** From the timeout of the first file to the moment the second is ready. */
  lemma MiddlePart(p: seq<byte>, r: Lossy)
    requires |p| >= 4
    requires Yields(Lossy(Middle(p, [SendNextFile], Ready, Some(1)), OPENED, [0], false), r)
    ensures Yields(Lossy(Early(p, [TimerReply], ReadReturn, Pending(OpRead), Fired), OPENED, [0], false), r)
  {
    hide PtrOk, Yields, Handle, Follower, File, Changed;
    ClosingLate(p);
    Steps(Lossy(Middle(p, [End(1)], Queued, None), OPENED, [0], false), Middle(p, [SendNextFile], Ready, Some(1)), r);
    MiddlePoints(p);
    MayClose(p);
    YieldsOn(Lossy(Middle(p, [], Queued, None), OPENED, [0], false), Change(ClientSends(End(1)), false), r);
    Resting(p);
    Steps(Lossy(Middle(p, [SendNextFile], Queued, Some(0)), OPENED, [0], false), Middle(p, [], Queued, None), r);
    Discarding(p);
    Steps(Lossy(Middle(p, [FileFailed(0)], Queued, Some(0)), OPENED, [0], false),
          Middle(p, [SendNextFile], Queued, Some(0)), r);
    TimingOutFirst(p);
    Steps(Lossy(Early(p, [TimerReply], ReadReturn, Pending(OpRead), Fired), OPENED, [0], false),
          Middle(p, [FileFailed(0)], Queued, Some(0)), r);
  }

  lemma MayClose(p: seq<byte>)
    requires |p| >= 4
    ensures var s := Lossy(Middle(p, [], Queued, None), OPENED, [0], false);
            && CanChange(s, Change(ClientSends(End(1)), false))
            && Changed(s, Change(ClientSends(End(1)), false)) ==
                 Lossy(Middle(p, [End(1)], Queued, None), OPENED, [0], false)
  {
    hide PtrOk, File;
    MiddlePoints(p);
    var none: seq<Msg<nat>> := [];
    assert none + [End(1)] == [End(1)];
  }

  /** From the request of the first file to its timeout. */
  lemma EarlyPart(p: seq<byte>, missed: bool, r: Lossy)
    requires |p| >= 4
    requires Yields(Lossy(Early(p, [TimerReply], ReadReturn, Pending(OpRead), Fired), OPENED, [0], false), r)
    ensures Yields(Lossy(Sending(p, [], Queued, 0, Running), [], [], missed), r)
  {
    hide PtrOk, Yields, Handle, Follower, File, Changed;
    TimerThere(p);
    YieldsOn(Lossy(Early(p, [], ReadReturn, Pending(OpRead), Running), OPENED, [0], false),
             Change(TimerFires, false), r);
    EarlyPoints(p, [SerialReply], WriteReturn, DONE, Running);
    AnswerAwaited(Early(p, [SerialReply], WriteReturn, DONE, Running));
    Steps(Lossy(Early(p, [SerialReply], WriteReturn, DONE, Running), OPENED, [0], false),
          Early(p, [], ReadReturn, Pending(OpRead), Running), r);
    Requested(p, missed);
    YieldsOn(Lossy(Early(p, [], WriteReturn, Pending(ASKED), Running), [], [], missed),
             Change(WriteDone(0), false), r);
    Writing(p);
    Steps(Lossy(Sending(p, [Write(1, ONE)], Queued, 0, Running), [], [], missed),
          Early(p, [], WriteReturn, Pending(ASKED), Running), r);
    MayWrite(p, missed);
    YieldsOn(Lossy(Sending(p, [], Queued, 0, Running), [], [], missed), Change(ClientSends(Write(1, ONE)), false), r);
  }

  lemma TimerThere(p: seq<byte>)
    requires |p| >= 4
    ensures var s := Lossy(Early(p, [], ReadReturn, Pending(OpRead), Running), OPENED, [0], false);
            && CanChange(s, Change(TimerFires, false))
            && Changed(s, Change(TimerFires, false)) ==
                 Lossy(Early(p, [TimerReply], ReadReturn, Pending(OpRead), Fired), OPENED, [0], false)
  {
    hide PtrOk, Follower, File;
    EarlyPoints(p, [], ReadReturn, Pending(OpRead), Running);
    var none: seq<Msg<nat>> := [];
    assert none + [TimerReply] == [TimerReply];
  }

  lemma MayWrite(p: seq<byte>, missed: bool)
    requires |p| >= 4
    ensures var s := Lossy(Sending(p, [], Queued, 0, Running), [], [], missed);
            && CanChange(s, Change(ClientSends(Write(1, ONE)), false))
            && Changed(s, Change(ClientSends(Write(1, ONE)), false)) ==
                 Lossy(Sending(p, [Write(1, ONE)], Queued, 0, Running), [], [], missed)
  {
    hide PtrOk, File;
    AllPoint(p);
    FileState1();
    var none: seq<Msg<nat>> := [];
    assert none + [Write(1, ONE)] == [Write(1, ONE)];
  }

  lemma YieldsMixed(s: Lossy)
    requires Beginning(s)
    ensures Yields(s, Mixed(Overlay(s.h.tftppkt, AckBytes(0))))
  {
    hide PtrOk, Yields, Handle, Follower, File, AckBytes, Overlay, Possible, Orderly;
    var p := s.h.tftppkt;
    var a, r := Sending(p, [], Queued, 0, Running), Mixed(Overlay(p, AckBytes(0)));
    AllPoint(p);
    ReachesSelf(a);
    FirstSent(s.h, a);
    LatePart(p);
    MiddlePart(p, r);
    forall missed
      ensures Yields(Lossy(a, [], [], missed), r)
    {
      EarlyPart(p, missed, r);
    }
    var moves :| PossibleRun(s.h, moves) && Throughout(s.h, moves, Orderly) && After(s.h, moves) == a;
    AllLostThen(s, moves, a, r);
  }

  lemma MixedUp(p: seq<byte>)
    ensures var r := Mixed(p);
            && |r.sessions| == |r.owners| == 1 && r.owners[0] < |r.h.transfers|
            && !(Flatten(r.sessions[0].got) <= Flatten(r.h.transfers[r.owners[0]].writes))
  {
    assert Flatten([ONE]) == ONE + Flatten([]);
  }

  /** A lost write request can put bytes of one file into the session of another: a run in which the DATA
      packet after it is stored for the file before. */
  lemma StrayStored(s: Lossy) returns (changes: seq<Change>)
    requires Beginning(s)
    ensures LossyRun(s, changes) && !NoneStrays(s, changes)
    ensures var r := Afterwards(s, changes);
            && |r.sessions| == |r.owners| == 1 && r.owners[0] < |r.h.transfers|
            && !(Flatten(r.sessions[0].got) <= Flatten(BytesFor(Dealings(s, changes), r.owners[0])))
  {
    hide PtrOk, LossyRun, NoneStrays, Afterwards, AckBytes, Overlay, Follower, Beginning, Dealings, PathsIn, BytesFor;
    hide NameOf;
    YieldsMixed(s);
    var r := Mixed(Overlay(s.h.tftppkt, AckBytes(0)));
    changes :| LossyRun(s, changes) && Afterwards(s, changes) == r;
    MixedUp(Overlay(s.h.tftppkt, AckBytes(0)));
    DealingsAre(s, changes);
    if NoneStrays(s, changes) {
      PrefixDespiteLosses(s, changes, 0);
    }
  }
}

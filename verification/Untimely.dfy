/** An orderly run that ends without a proper owner of the link: a client closes a second file while the
    first is in flight, which makes the local variable of the main loop name the second; the timeout of
    the first then fails the second, and the first stays in flight with the handler not busy. */
module Untimely {
  import opened Bytes
  import opened Messages
  import opened Packets
  import opened Paths
  import opened Engine
  import opened Files
  import opened Ownership
  import opened SharedLink

  const NAME: CString := [97]
  const PATH: CString := [58, 47, 47, 47, 97]
  const FULL := Net(true, true)
  const ASKED: Op<Packet> := OpWrite(Wrq(NAME))
  const DONE: Request<Packet, Extracted> := Replied(ASKED, 0, Payload([]))

  function File(state: FileState, error: nat): Ftx {
    NewFtx(PATH).(state := state, error := error)
  }

  /** The handler without a file in flight, and with file 0 in flight. */
  function Idling(pkt: seq<byte>, port: seq<Msg<nat>>, ts: seq<Ftx>, local: Option<nat>): H {
    H(port, true, false, ts, NoIo, None, local, Idle, Stopped, pkt, [], false, false, false, false)
  }

  function Sending(pkt: seq<byte>, port: seq<Msg<nat>>, second: FileState, local: nat, timer: Countdown): H {
    H(port, true, true, [File(WrqSent, 0), File(second, 0)], WriteReturn, Some(0), Some(local),
      Pending(ASKED), timer, pkt, [0], false, false, false, false)
  }

  function Lost(pkt: seq<byte>): H {
    H([FileFailed(1)], true, false, [File(WrqSent, 0), File(Error, ERROR_IO_TIMEOUT)], WriteReturn, Some(0), Some(1),
      Idle, Stopped, pkt, [0], false, false, false, true)
  }

  /** Some orderly run leads from h to r. */
  ghost predicate Reaches(h: H, r: H) {
    PtrOk(h) && exists moves :: PossibleRun(h, moves) && Throughout(h, moves, Orderly) && After(h, moves) == r
  }

  lemma ReachesSelf(h: H)
    requires PtrOk(h)
    ensures Reaches(h, h)
  {
    assert PossibleRun(h, []) && Throughout(h, [], Orderly) && After(h, []) == h;
  }

  lemma ReachesOn(h: H, mv: Move, next: H, r: H)
    requires PtrOk(h) && Possible(h, mv) && Orderly(h, mv) && Apply(h, mv) == next && Reaches(next, r)
    ensures Reaches(h, r)
  {
    hide PtrOk, Possible, Orderly, Apply;
    var moves :| PossibleRun(next, moves) && Throughout(next, moves, Orderly) && After(next, moves) == r;
    assert ([mv] + moves)[1..] == moves;
    assert PossibleRun(h, [mv] + moves) && Throughout(h, [mv] + moves, Orderly) && After(h, [mv] + moves) == r;
  }

  lemma PathName()
    ensures NamePart(PATH) == NAME && NewFtx(PATH).name == NAME
  {
    NameBehind([], [SLASH, SLASH], [], NAME);
    assert [] + [COLON] + [SLASH, SLASH] + [] + [SLASH] + NAME == PATH;
    assert NAME[..1] == NAME;
  }

  lemma Opening(pkt: seq<byte>, ts: seq<Ftx>)
    requires |pkt| >= 4
    ensures var h := Idling(pkt, [FindOutput(PATH)], ts, None);
            PtrOk(h) && Handle(h, FULL) == Idling(pkt, [], ts + [File(Queued, 0)], None)
  {
    var m: Msg<nat> := FindOutput(PATH);
    assert [m][1..] == [];
  }

  lemma Closing(pkt: seq<byte>)
    requires |pkt| >= 4
    ensures var h := Idling(pkt, [End(0)], [File(Queued, 0), File(Queued, 0)], None);
            PtrOk(h) && Handle(h, FULL) == Idling(pkt, [SendNextFile], [File(Ready, 0), File(Queued, 0)], Some(0))
  {
    var m: Msg<nat> := End(0);
    assert [m][1..] == [];
  }

  lemma Picking(pkt: seq<byte>)
    requires |pkt| >= 4
    ensures var h := Idling(pkt, [SendNextFile], [File(Ready, 0), File(Queued, 0)], Some(0));
            PtrOk(h) && Handle(h, FULL) == Sending(pkt, [], Queued, 0, Running)
  {
    var h := Idling(pkt, [SendNextFile], [File(Ready, 0), File(Queued, 0)], Some(0));
    assert h.port[1..] == [] && NextReady(h.transfers, 0) == Some(0) && h.started + [0] == [0];
    PathName();
    assert h.transfers[0 := File(WrqSent, 0)] == [File(WrqSent, 0), File(Queued, 0)];
  }

  lemma ClosingOther(pkt: seq<byte>)
    requires |pkt| >= 4
    ensures var h := Sending(pkt, [End(1)], Queued, 0, Running);
            PtrOk(h) && Handle(h, FULL) == Sending(pkt, [SendNextFile], Ready, 1, Running)
  {
    var h := Sending(pkt, [End(1)], Queued, 0, Running);
    assert h.port[1..] == [];
    assert h.transfers[1 := File(Ready, 0)] == [File(WrqSent, 0), File(Ready, 0)];
  }

  lemma Dropping(pkt: seq<byte>)
    requires |pkt| >= 4
    ensures var h := Sending(pkt, [SendNextFile, TimerReply], Ready, 1, Fired);
            PtrOk(h) && Handle(h, FULL) == Sending(pkt, [TimerReply], Ready, 1, Fired)
  {
  }

  lemma TimingOut(pkt: seq<byte>)
    requires |pkt| >= 4
    ensures var h := Sending(pkt, [TimerReply], Ready, 1, Fired);
            PtrOk(h) && Handle(h, FULL) == Lost(pkt)
  {
    var h := Sending(pkt, [TimerReply], Ready, 1, Fired);
    assert h.port[1..] == [];
    assert h.transfers[1 := File(Error, ERROR_IO_TIMEOUT)] == Lost(pkt).transfers;
  }

  lemma Second(pkt: seq<byte>)
    requires |pkt| >= 4
    ensures Reaches(Sending(pkt, [], Queued, 0, Running), Lost(pkt))
  {
    hide PtrOk, Handle, Reaches, File;
    var a, b := Sending(pkt, [], Queued, 0, Running), Sending(pkt, [End(1)], Queued, 0, Running);
    var c := Sending(pkt, [SendNextFile], Ready, 1, Running);
    var d := Sending(pkt, [SendNextFile, TimerReply], Ready, 1, Fired);
    var e, f := Sending(pkt, [TimerReply], Ready, 1, Fired), Lost(pkt);
    TimingOut(pkt);
    Dropping(pkt);
    ClosingOther(pkt);
    AllPoint(pkt);
    FileState1();
    ReachesSelf(f);
    ReachesOn(e, Step(FULL), f, f);
    ReachesOn(d, Step(FULL), e, f);
    ReachesOn(c, TimerFires, d, f);
    ReachesOn(b, Step(FULL), c, f);
    ReachesOn(a, ClientSends(End(1)), b, f);
  }

  lemma FileState1()
    ensures File(Queued, 0).state == Queued
  {
  }

  lemma AllPoint(pkt: seq<byte>)
    requires |pkt| >= 4
    ensures PtrOk(Lost(pkt)) && PtrOk(Sending(pkt, [], Queued, 0, Running))
    ensures PtrOk(Sending(pkt, [SendNextFile], Ready, 1, Running))
  {
  }

  /** What can be reached with two files open can be reached. */
  lemma TwoOpen(h: H, r: H)
    requires Initial(h) && Reaches(Idling(h.tftppkt, [], [File(Queued, 0), File(Queued, 0)], None), r)
    ensures Reaches(h, r)
  {
    hide PtrOk, Handle, Reaches, File;
    var p, q := h.tftppkt, File(Queued, 0);
    Opening(p, []);
    Opening(p, [q]);
    IdlePoint(p);
    assert [q] + [q] == [q, q] && [] + [q] == [q];
    ReachesOn(Idling(p, [FindOutput(PATH)], [q], None), Step(FULL), Idling(p, [], [q, q], None), r);
    ReachesOn(Idling(p, [], [q], None), ClientSends(FindOutput(PATH)), Idling(p, [FindOutput(PATH)], [q], None), r);
    ReachesOn(Idling(p, [FindOutput(PATH)], [], None), Step(FULL), Idling(p, [], [q], None), r);
    ReachesOn(h, ClientSends(FindOutput(PATH)), Idling(p, [FindOutput(PATH)], [], None), r);
  }

  /** File 0 of two is in flight. */
  lemma FirstSent(h: H, r: H)
    requires Initial(h) && Reaches(Sending(h.tftppkt, [], Queued, 0, Running), r)
    ensures Reaches(h, r)
  {
    hide PtrOk, Handle, Reaches, File;
    var p, q := h.tftppkt, File(Queued, 0);
    Picking(p);
    Closing(p);
    IdlePoint(p);
    FileState1();
    var two, ready := [q, q], [File(Ready, 0), q];
    ReachesOn(Idling(p, [SendNextFile], ready, Some(0)), Step(FULL), Sending(p, [], Queued, 0, Running), r);
    ReachesOn(Idling(p, [End(0)], two, None), Step(FULL), Idling(p, [SendNextFile], ready, Some(0)), r);
    ReachesOn(Idling(p, [], two, None), ClientSends(End(0)), Idling(p, [End(0)], two, None), r);
    TwoOpen(h, r);
  }

  lemma AnswerAwaited(h: H)
    requires PtrOk(h) && h.port == [SerialReply] && h.ioType == WriteReturn && h.serial == DONE && h.ioArg.Some?
    ensures Handle(h, FULL) == h.(port := [], ioType := ReadReturn, serial := Pending(OpRead), timer := Running)
  {
    assert h.port[1..] == [];
  }

  lemma IdlePoint(pkt: seq<byte>)
    requires |pkt| >= 4
    ensures PtrOk(Idling(pkt, [], [], None)) && PtrOk(Idling(pkt, [], [File(Queued, 0)], None))
    ensures PtrOk(Idling(pkt, [], [File(Queued, 0), File(Queued, 0)], None))
  {
  }

  /** Without the assumption on timeouts the link is not always owned. */
  lemma LinkLost(h: H) returns (moves: seq<Move>)
    requires Initial(h)
    ensures PossibleRun(h, moves) && Throughout(h, moves, Orderly)
    ensures var r := After(h, moves);
            && r.running && !LinkOwned(r) && !r.busy
            && |r.transfers| == 2 && r.transfers[0].state == WrqSent && r.transfers[1].state == Error
  {
    Second(h.tftppkt);
    FirstSent(h, Lost(h.tftppkt));
    hide PossibleRun, Throughout, After, Orderly, PtrOk;
    moves :| PossibleRun(h, moves) && Throughout(h, moves, Orderly) && After(h, moves) == Lost(h.tftppkt);
    assert Sent(Lost(h.tftppkt).transfers[0]);
  }
}

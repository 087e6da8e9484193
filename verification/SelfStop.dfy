/** When the handler stops by itself: a read that fails, or brings nothing that can be extracted, fails the
    transfer, and the opcode switch is then let loose on whatever tftppkt holds. */
module SelfStop {
  import opened Bytes
  import opened Messages
  import opened Packets
  import opened Engine
  import opened Files
  import opened Ownership
  import opened Effects
  import opened Completions
  import opened Delivery
  import opened CleanEnd
  import opened Untimely

  /** What tftppkt holds when the opcode switch looks at it. */
  function Examined(h: H, mem: bool): seq<byte>
    requires h.serial.Replied?
  {
    if Seen(h, mem).Payload? then Overlay(h.tftppkt, Seen(h, mem).bytes) else h.tftppkt
  }

  /** The read has failed, or nothing could be extracted, and the packet examined all the same is an
      acknowledgement. */
  predicate StaleAck(h: H, mem: bool) {
    && h.ioType == ReadReturn && h.serial.Replied?
    && (h.serial.status > 0 || Seen(h, mem).Rejected?)
    && |Examined(h, mem)| >= 4 && GetOpcode(Examined(h, mem)) == OP_ACK
  }

  /** The passes that stop the handler. */
  predicate Halts(h: H, mv: Move) {
    mv.Step? && h.port != [] && (h.port[0] == Die || (h.port[0] == SerialReply && StaleAck(h, mv.net.mem)))
  }

  lemma StatusKeeps(h: H, i: nat)
    requires i < |h.transfers| && h.serial.Replied?
    ensures TakeStatus(h, i).tftppkt == h.tftppkt && TakeStatus(h, i).running == h.running
    ensures |TakeStatus(h, i).transfers| == |h.transfers|
  {
    hide Fail;
    FailIo(h.(serial := Idle), i, h.serial.status);
    FailRuns(h.(serial := Idle), i, h.serial.status);
  }

  lemma OpenedPacket(h: H, i: nat, mem: bool)
    requires i < |h.transfers| && h.serial.Replied?
    ensures Opened(h, i, mem).tftppkt == Examined(h, mem) && Opened(h, i, mem).running == h.running
  {
    hide Fail, TakeStatus, Overlay, Without;
    var h1 := StopTimer(h);
    StatusKeeps(h1, i);
    var x := Seen(h, mem);
    if x.Rejected? {
      FailIo(TakeStatus(h1, i), i, x.errno);
      FailRuns(TakeStatus(h1, i), i, x.errno);
    }
  }

  lemma ErrorStops(h: H, i: nat)
    requires i < |h.transfers| && |h.tftppkt| >= 4 && h.transfers[i].state == Error
    ensures DoReply(h, i).running <==> h.running && GetOpcode(h.tftppkt) != OP_ACK
  {
    hide Fail, DoAcked, GetOpcode, GetBlknum;
    FailRuns(h, i, ERROR_TFTP_GENERIC_ERROR);
    FailRuns(h, i, ERROR_TFTP_UNKNOWN_OPCODE);
  }

  lemma FailedReadStops(h: H, i: nat, mem: bool)
    requires PtrOk(h) && i < |h.transfers| && HasData(h.serial) && h.running
    requires h.serial.status > 0 || Seen(h, mem).Rejected?
    ensures |Examined(h, mem)| >= 4
    ensures DoReadReturn(h, i, mem).running <==> GetOpcode(Examined(h, mem)) != OP_ACK
  {
    hide DoReply, TakePacket, TakeStatus, GetOpcode, StopTimer, Examined, PtrOk;
    ArgPoints(h);
    OpenedPacket(h, i, mem);
    OpenedFailed(h, i, mem);
    ReadReturnIs(h, i, mem);
    ErrorStops(Opened(h, i, mem), i);
  }

  lemma ReadReturnIs(h: H, i: nat, mem: bool)
    requires PtrOk(h) && i < |h.transfers| && HasData(h.serial)
    ensures |Opened(h, i, mem).tftppkt| >= 4 && DoReadReturn(h, i, mem) == DoReply(Opened(h, i, mem), i)
  {
    hide DoReply, TakePacket, TakeStatus;
  }

  lemma ReadStops(h: H, ph: Phase, net: Net)
    requires PtrOk(h) && h.port != [] && Inv(h, ph) && h.port[0] == SerialReply && h.ioType == ReadReturn && h.running
    requires !Handle(h, net).trapped
    ensures Handle(h, net).running <==> !StaleAck(h, net.mem)
  {
    hide Inv, PtrOk, DoReadReturn, Examined, GetOpcode, Up;
    TakeSerial(h, ph);
    ReadsData(h, net);
    if h.serial.status > 0 || Seen(h, net.mem).Rejected? {
      FailedReadStops(Rest1(h), h.ioArg.value, net.mem);
      SameExamined(h, net.mem);
    } else {
      ReadRuns(h, ph, net);
    }
  }

  lemma SameExamined(h: H, mem: bool)
    requires h.port != [] && h.serial.Replied?
    ensures Examined(Rest1(h), mem) == Examined(h, mem) && Seen(Rest1(h), mem) == Seen(h, mem)
  {
    hide Overlay;
  }

  lemma DieHalts(h: H, net: Net)
    requires PtrOk(h) && h.port != [] && h.port[0] == Die
    ensures !Handle(h, net).running
  {
    hide PtrOk, Without;
  }

  lemma TimerGoesOn(h: H, ph: Phase, net: Net)
    requires PtrOk(h) && h.port != [] && Inv(h, ph) && h.port[0] == TimerReply
    ensures Handle(h, net).running == h.running
  {
    hide PtrOk, Inv, Up, Without, Fail, OthersOk;
    TakeTimer(h, ph);
    TimerLocal(h, ph);
    HeadPoints(h);
    FailRuns(Abandon(Rest1(h)), h.local.value, ERROR_IO_TIMEOUT);
  }

  lemma PassStops(h: H, ph: Phase, net: Net)
    requires PtrOk(h) && h.port != [] && Inv(h, ph) && h.running && !Handle(h, net).trapped
    ensures Handle(h, net).running <==> !Halts(h, Step(net))
  {
    hide PtrOk, Inv, Handle, StaleAck, Up;
    match KindOf(h.port[0])
    case Active => ActiveRuns(h, net);
    case Serial =>
      TakeSerial(h, ph);
      ReplyOp(h, ph);
      if h.ioType == WriteReturn {
        WriteRuns(h, net);
        assert !StaleAck(h, net.mem) by {
          NotReading(h, net.mem);
        }
      } else {
        ReadStops(h, ph, net);
      }
    case Timer => TimerGoesOn(h, ph, net);
    case _ =>
      if h.port[0] == Die {
        DieHalts(h, net);
      } else {
        OtherRuns(h, net);
      }
  }

  lemma NotReading(h: H, mem: bool)
    requires h.ioType != ReadReturn
    ensures !StaleAck(h, mem)
  {
  }

  /** In an orderly run a move stops the handler exactly if it is the pass in which ACTION_DIE is handled, or
      the reply of a read that failed or could not be extracted while the packet left in tftppkt, or put
      there by the failed read, is an acknowledgement. */
  lemma StopsExact(h: H, moves: seq<Move>, mv: Move)
    requires Initial(h) && PossibleRun(h, moves) && Throughout(h, moves, Orderly)
    requires Possible(After(h, moves), mv) && Orderly(After(h, moves), mv)
    ensures Apply(After(h, moves), mv).running <==> !Halts(After(h, moves), mv)
  {
    hide After, Inv, Handle, PtrOk, Orderly, Halts, NextPhase;
    InitInv(h);
    InvFine(h, Rest);
    var last := RunInv(h, Rest, moves);
    var r := After(h, moves);
    ApplyInv(r, last, mv);
    if mv.Step? {
      PassStops(r, last, mv.net);
    } else {
      OnlyPasses(r, mv);
    }
  }

  lemma OnlyPasses(h: H, mv: Move)
    requires !mv.Step?
    ensures !Halts(h, mv)
  {
  }

  /** In any state at all, the completion of a write stops the handler exactly if its request turns out to be
      still out; the answer is read, or the file fails for want of memory, all the same. */
  lemma WriteStops(h: H, net: Net)
    requires PtrOk(h) && h.port != [] && h.port[0] == SerialReply && h.ioType == WriteReturn && h.ioArg.Some?
    ensures var r := Handle(h, net);
            && (r.running <==> h.running && h.serial.Replied?)
            && (net.mem ==> r.serial == Pending(OpRead) && r.timer == Running && r.ioType == ReadReturn)
            && (!net.mem ==> h.ioArg.value < |r.transfers| && r.transfers[h.ioArg.value].state == Error)
  {
    hide PtrOk, Without, Fail, TakeStatus;
    ArgPoints(h);
    var h1, i := StopTimer(Rest1(h)), h.ioArg.value;
    StatusRuns(h1, i);
    var h2 := TakeStatus(h1, i).(ioType := ReadReturn);
    FailRuns(h2, i, ERROR_NO_FREE_STORE);
    FailState(h2, i, ERROR_NO_FREE_STORE);
  }

  lemma StatusRuns(h: H, i: nat)
    requires i < |h.transfers|
    ensures |TakeStatus(h, i).transfers| == |h.transfers|
    ensures TakeStatus(h, i).running <==> h.running && h.serial.Replied?
  {
    hide Fail;
    if h.serial.Replied? {
      FailRuns(h.(serial := Idle), i, h.serial.status);
    }
  }

  /** ACTION_DIE leaves no serial request and no reply of one behind; every other message stays. */
  lemma DieAborts(h: H, net: Net)
    requires PtrOk(h) && h.port != [] && h.port[0] == Die
    ensures var r := Handle(h, net);
            && !r.running && r.serial == Idle && r.transfers == h.transfers
            && forall m :: m in r.port <==> m in h.port[1..] && m != SerialReply
  {
    hide PtrOk, Without;
    var r, q := Handle(h, net), h.port[1..];
    assert r.port == Without(q, Kind.Serial);
    WithoutMembers(q, Kind.Serial);
    forall m: Msg<nat>
      ensures m in r.port <==> m in q && m != SerialReply
    {
      assert KindOf(m) == Kind.Serial <==> m == SerialReply;
    }
  }

  // ---------------------------------------------------------------------------------------
  // A run in which it happens
  // ---------------------------------------------------------------------------------------

  /** File 0 awaits the answer to its request. */
  function Awaiting(pkt: seq<byte>, port: seq<Msg<nat>>, ioType: IoType, serial: Request<Packet, Extracted>): H {
    H(port, true, true, [File(WrqSent, 0), File(Queued, 0)], ioType, Some(0), Some(0),
      serial, Running, pkt, [0], false, false, false, false)
  }

  const LINE_ERROR := 5

  function Garbled(): Request<Packet, Extracted> {
    Replied(OpRead, LINE_ERROR, Payload(AckBytes(0)))
  }

  lemma AwaitingPoints(pkt: seq<byte>, port: seq<Msg<nat>>, ioType: IoType, serial: Request<Packet, Extracted>)
    requires |pkt| >= 4 && (port == [] || port == [SerialReply])
    ensures PtrOk(Awaiting(pkt, port, ioType, serial))
  {
  }

  lemma ReachesGarbled(h: H)
    requires Initial(h)
    ensures Reaches(h, Awaiting(h.tftppkt, [SerialReply], ReadReturn, Garbled()))
  {
    hide PtrOk, Handle, Reaches, File, AckBytes;
    var p := h.tftppkt;
    var r := Awaiting(p, [SerialReply], ReadReturn, Garbled());
    AwaitingPoints(p, [SerialReply], ReadReturn, Garbled());
    AwaitingPoints(p, [], ReadReturn, Pending(OpRead));
    AwaitingPoints(p, [], WriteReturn, Pending(ASKED));
    AwaitingPoints(p, [SerialReply], WriteReturn, DONE);
    AnswerAwaited(Awaiting(p, [SerialReply], WriteReturn, DONE));
    ReachesSelf(r);
    ReachesOn(Awaiting(p, [], ReadReturn, Pending(OpRead)), ReadDone(LINE_ERROR, Payload(AckBytes(0))), r, r);
    ReachesOn(Awaiting(p, [SerialReply], WriteReturn, DONE), Step(FULL),
              Awaiting(p, [], ReadReturn, Pending(OpRead)), r);
    ReachesOn(Awaiting(p, [], WriteReturn, Pending(ASKED)), WriteDone(0),
              Awaiting(p, [SerialReply], WriteReturn, DONE), r);
    FirstSent(h, r);
  }

  lemma GarbledStops(pkt: seq<byte>)
    requires |pkt| >= 4
    ensures StaleAck(Awaiting(pkt, [SerialReply], ReadReturn, Garbled()), true)
  {
    hide AckBytes, GetOpcode, GetBlknum, Overlay;
    AckFront(0, pkt, AckBytes(0));
  }

  /** It does happen without ACTION_DIE: an orderly run after which a read has ended with a line error
      although an acknowledgement had come in. */
  lemma StopsByItself(h: H) returns (moves: seq<Move>)
    requires Initial(h)
    ensures PossibleRun(h, moves) && Throughout(h, moves, Orderly)
    ensures var r := After(h, moves);
            && r.running && r.port == [SerialReply] && r.serial.Replied? && r.serial.status > 0
            && !Handle(r, FULL).running
  {
    ReachesGarbled(h);
    GarbledStops(h.tftppkt);
    hide PossibleRun, Throughout, After, Orderly, PtrOk, StaleAck, Handle;
    var r := Awaiting(h.tftppkt, [SerialReply], ReadReturn, Garbled());
    moves :| PossibleRun(h, moves) && Throughout(h, moves, Orderly) && After(h, moves) == r;
    PassIsOrderly(r);
    StopsExact(h, moves, Step(FULL));
  }

  lemma PassIsOrderly(h: H)
    ensures Orderly(h, Step(FULL))
  {
  }
}

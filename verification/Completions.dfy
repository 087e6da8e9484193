/** The race between the completion of a serial operation and its timeout. */
module Completions {
  import opened Messages
  import opened Packets
  import opened Engine
  import opened Files
  import opened Ownership

  lemma FailIo(h: H, i: nat, error: nat)
    requires i < |h.transfers|
    ensures Fail(h, i, error).serial == h.serial && Fail(h, i, error).timer == h.timer
    ensures |Fail(h, i, error).transfers| == |h.transfers| && Fail(h, i, error).tftppkt == h.tftppkt
  {
    hide HasInternal;
  }

  lemma WriteSettles(h: H, i: nat, mem: bool)
    requires i < |h.transfers| && h.serial.Replied?
    ensures var r := DoWriteReturn(h, i, mem); !r.serial.Replied? && r.timer != Fired
  {
    hide Fail, Without;
    var h1 := StopTimer(h).(serial := Idle);
    FailIo(h1, i, h.serial.status);
    var h2 := TakeStatus(StopTimer(h), i).(ioType := ReadReturn);
    FailIo(h2, i, ERROR_NO_FREE_STORE);
  }

  lemma AckedIo(h: H, i: nat)
    requires i < |h.transfers|
    ensures DoAcked(h, i).serial == h.serial && DoAcked(h, i).timer == h.timer
  {
    hide HasInternal, Chunk, InBounds;
  }

  lemma ReplySettles(h: H, i: nat)
    requires i < |h.transfers| && |h.tftppkt| >= 4 && h.serial == Idle && h.timer == Stopped
    ensures var r := DoReply(h, i); !r.serial.Replied? && r.timer != Fired
  {
    hide Fail, HasInternal, DoAcked, GetOpcode, GetBlknum;
    AckedIo(h, i);
    FailIo(h, i, ERROR_TFTP_GENERIC_ERROR);
    FailIo(h, i, ERROR_TFTP_UNKNOWN_OPCODE);
    FailIo(h, i, ERROR_TFTP_WRONG_BLOCK_NUM);
  }

  lemma ReadSettles(h: H, i: nat, mem: bool)
    requires PtrOk(h) && i < |h.transfers| && HasData(h.serial)
    ensures var r := DoReadReturn(h, i, mem); !r.serial.Replied? && r.timer != Fired
  {
    hide Fail, Without, DoReply, Overlay;
    var h1 := StopTimer(h).(serial := Idle);
    FailIo(h1, i, h.serial.status);
    var h2 := TakeStatus(StopTimer(h), i);
    var x := if mem then h.serial.reply else Rejected(ERROR_NO_FREE_STORE);
    if x.Rejected? {
      FailIo(h2, i, x.errno);
    }
    ReplySettles(TakePacket(h2, i, x), i);
  }

  lemma CompletionSettles(h: H, ph: Phase, net: Net)
    requires PtrOk(h) && h.port != [] && h.port[0] == SerialReply && Inv(h, ph) && !Handle(h, net).trapped
    ensures !Handle(h, net).serial.Replied? && Handle(h, net).timer != Fired
  {
    hide Inv, PtrOk, DoWriteReturn, DoReadReturn;
    HeadPoints(h);
    TakeSerial(h, ph);
    ReadsData(h, net);
    if h.ioType == WriteReturn {
      WriteSettles(Rest1(h), h.ioArg.value, net.mem);
    } else {
      ReadSettles(Rest1(h), h.ioArg.value, net.mem);
    }
  }

  lemma ReadsData(h: H, net: Net)
    requires PtrOk(h) && h.port != [] && h.port[0] == SerialReply && !Handle(h, net).trapped
    ensures h.ioType != NoIo && h.ioArg.Some? && h.ioArg.value < |h.transfers| && PtrOk(Rest1(h))
    ensures h.ioType == ReadReturn ==> HasData(h.serial)
  {
    hide DoWriteReturn, TakePacket, TakeStatus, DoReply;
  }

  /** Of the completion of a serial operation and its timeout at most one is ever handled: whichever is
      handled first, neither is at the port when the pass is over. */
  lemma {:induction false} OneOutcome(h: H, moves: seq<Move>, net: Net)
    requires Initial(h) && PossibleRun(h, moves) && Throughout(h, moves, Orderly)
    requires var r := After(h, moves);
             && r.running && r.port != [] && (r.port[0] == SerialReply || r.port[0] == TimerReply)
             && Orderly(r, Step(net)) && Handle(r, net).running
    ensures SerialReply !in Handle(After(h, moves), net).port && TimerReply !in Handle(After(h, moves), net).port
  {
    hide After, Inv, Handle, PtrOk, Orderly, NextPhase;
    InitInv(h);
    InvFine(h, Rest);
    var last := RunInv(h, Rest, moves);
    var r := After(h, moves);
    ApplyInv(r, last, Step(net));
    if r.port[0] == SerialReply {
      CompletionSettles(r, last, net);
    } else {
      TimeoutSettles(r, net);
    }
    NoneLeft(Handle(r, net), PhaseAfter(r, last, Step(net)));
  }

  lemma TimeoutSettles(h: H, net: Net)
    requires PtrOk(h) && h.port != [] && h.port[0] == TimerReply
    ensures !Handle(h, net).serial.Replied? && Handle(h, net).timer != Fired
  {
    hide Fail, Without;
    var h1 := Abandon(Rest1(h));
    if h.local.Some? {
      FailIo(h1, h.local.value, ERROR_IO_TIMEOUT);
    }
  }

  lemma NoneLeft(h: H, ph: Phase)
    requires Inv(h, ph) && !h.serial.Replied? && h.timer != Fired
    ensures SerialReply !in h.port && TimerReply !in h.port
  {
    hide XferOk, RestOk, QueueOk;
    OfMembers(h.port, Kind.Serial);
    OfMembers(h.port, Kind.Timer);
  }
}

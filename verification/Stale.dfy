/** Runs in which the handler reports a file as finished although the server holds only its first part.
    Some files time out first and leave replies on the line; the last file takes them for its own. The
    runs are built for any last file w of at most 65535 blocks that fit their frames. */
module Stale {
  import opened Bytes
  import opened Messages
  import opened Packets
  import opened Engine
  import opened Files
  import opened Ownership
  import opened Server
  import opened Delivery
  import opened CleanEnd
  import opened Termination

  // ---------------------------------------------------------------------------------------
  // Runs, put together
  // ---------------------------------------------------------------------------------------

  /** Some run leads from s to r. */
  ghost predicate Leads(s: Sys, r: Sys) {
    exists events :: AllowedRun(s, events) && AfterRun(s, events) == r
  }

  lemma LeadsNowhere(s: Sys)
    ensures Leads(s, s)
  {
    assert AllowedRun(s, []) && AfterRun(s, []) == s;
  }

  lemma LeadsOn(s: Sys, ev: Event, r: Sys)
    requires Allowed(s, ev) && Leads(Next1(s, ev), r)
    ensures Leads(s, r)
  {
    hide Allowed, Next1;
    var events :| AllowedRun(Next1(s, ev), events) && AfterRun(Next1(s, ev), events) == r;
    assert ([ev] + events)[1..] == events;
    assert AllowedRun(s, [ev] + events) && AfterRun(s, [ev] + events) == r;
  }

  lemma LeadsOne(s: Sys, ev: Event)
    requires Allowed(s, ev)
    ensures Leads(s, Next1(s, ev))
  {
    LeadsNowhere(Next1(s, ev));
    LeadsOn(s, ev, Next1(s, ev));
  }

  lemma LeadsTwice(a: Sys, b: Sys, c: Sys)
    requires Leads(a, b) && Leads(b, c)
    ensures Leads(a, c)
  {
    hide Allowed, Next1;
    var events :| AllowedRun(a, events) && AfterRun(a, events) == b;
    var more :| AllowedRun(b, more) && AfterRun(b, more) == c;
    RunsJoin(a, events, more);
  }

  // ---------------------------------------------------------------------------------------
  // One file alone on the system
  // ---------------------------------------------------------------------------------------

  /** File i is under way, and the books are in order. */
  predicate Under(s: Sys, i: nat, ph: Phase) {
    SysInv(s, ph) && Alone(s.h, i, ph)
  }

  lemma PhaseSame(h: H, i: nat, ph: Phase, other: Phase)
    requires Alone(h, i, ph) && Inv(h, other) && ph != Rest
    ensures ph == other
  {
    hide RestOk, QueueOk, Payloads, Unacked, PtrOk, JustClosed, AllFresh;
    if ph != WrqOut && ph != DataOut {
      TokenIs(ph, i);
    }
  }

  lemma TokenIs(ph: Phase, i: nat)
    ensures Of(Token(ph, i), Active) == Token(ph, i)
  {
    if Token(ph, i) != [] {
      assert Token(ph, i)[1..] == [];
    }
  }

  lemma HeadAlone(h: H, i: nat, ph: Phase)
    requires Alone(h, i, ph) && h.port != []
    ensures !h.port[0].Write? && !h.port[0].TimerReply? && PtrOk(h) && h.running && i < |h.transfers|
  {
    hide XferOk, IoFor;
  }

  lemma PassAllowed(s: Sys, i: nat, ph: Phase)
    requires Alone(s.h, i, ph) && s.h.port != []
    ensures PtrOk(s.h) && Allowed(s, Pass(FullPass(s.h)))
  {
    hide Alone, PtrOk, FitsTold, FullPass;
    HeadAlone(s.h, i, ph);
    FullPassTold(s.h);
  }

  /** The next message of file i is handled. */
  lemma PassUnder(w: seq<seq<byte>>, s: Sys, i: nat, ph: Phase) returns (r: Sys, next: Phase)
    requires Under(s, i, ph) && s.h.port != [] && Cast(w, s.h.transfers, i)
    ensures Leads(s, r) && r.line == s.line && SysInv(r, next) && i < |s.h.transfers|
    ensures Advances(s.h, r.h, i, ph, After1(s.h, i, ph))
    ensures !Ended(r.h.transfers[i]) ==> next == After1(s.h, i, ph) && Under(r, i, next)
  {
    hide SysInv, Alone, PtrOk, Allowed, FitsTold, Outgoing, Fits, TftpBytes, Payloads, Writes, Cast, Ended, WellDone,
         Overrun, Handle, RankOf, Rank;
    HeadAlone(s.h, i, ph);
    CastWrites(w, s.h.transfers, i);
    AllFit(w, i);
    PassAllowed(s, i, ph);
    FullPassTold(s.h);
    var net := FullPass(s.h);
    r, next := PassStepUnder(s, ph, net);
    StepAdvances(s.h, i, ph, net);
    if !Ended(r.h.transfers[i]) {
      PhaseOfAlone(r, i, After1(s.h, i, ph), next);
    }
  }

  lemma PassStepUnder(s: Sys, ph: Phase, net: Net) returns (r: Sys, next: Phase)
    requires SysInv(s, ph) && Allowed(s, Pass(net)) && net.mem
    ensures Leads(s, r) && r.line == s.line && SysInv(r, next) && PtrOk(s.h) && s.h.port != []
    ensures r.h == Handle(s.h, net)
  {
    hide SysInv, Handle, Orderly, FitsTold, PtrOk, PhaseNext;
    SysStep(s, ph, Pass(net));
    LeadsOne(s, Pass(net));
    r, next := Next1(s, Pass(net)), PhaseNext(s, ph, Pass(net));
  }

  lemma PhaseOfAlone(s: Sys, i: nat, ph: Phase, other: Phase)
    requires SysInv(s, other) && Alone(s.h, i, ph) && ph != Rest
    ensures ph == other
  {
    hide Books, ActiveOk, Inv, Alone;
    AloneRuns(s.h, i, ph);
    PhaseSame(s.h, i, ph, other);
  }

  lemma AloneRuns(h: H, i: nat, ph: Phase)
    requires Alone(h, i, ph)
    ensures h.running && PtrOk(h) && i < |h.transfers|
  {
  }

  // ---------------------------------------------------------------------------------------
  // The completions of its requests
  // ---------------------------------------------------------------------------------------

  lemma DeviceUnder(s: Sys, i: nat, ph: Phase, ev: Event)
    requires Under(s, i, ph) && Allowed(s, ev) && (ev.WriteEnds? || ev.ReadEnds?)
    requires PtrOk(s.h) && Serving(s.h, i, MoveOf(s, ev))
    ensures Leads(s, Next1(s, ev)) && Under(Next1(s, ev), i, ph)
    ensures Next1(s, ev).h.transfers == s.h.transfers && Next1(s, ev).h.serial.Replied?
    ensures Next1(s, ev).h.serial.op == s.h.serial.op && Next1(s, ev).h.port != []
  {
    hide SysInv, Alone, PtrOk, Payloads, Orderly, Extract, Image, ImageSize, Arrived, FitsTold;
    SysStep(s, ph, ev);
    LeadsOne(s, ev);
    DeviceKeeps(s.h, i, ph, MoveOf(s, ev));
  }

  /** The frame in flight arrives, and the server answers. */
  lemma WriteUnder(s: Sys, i: nat, ph: Phase) returns (r: Sys)
    requires Under(s, i, ph) && s.h.serial.Pending? && s.h.serial.op.OpWrite?
    ensures Leads(s, r) && Under(r, i, ph) && r.h.transfers == s.h.transfers && i < |s.h.transfers|
    ensures r.h.serial.Replied? && r.h.serial.op.OpWrite? && r.h.port != []
    ensures r.line == s.line + [Reply(s.sessions, OnLine(s.h.transfers[i], ph))]
  {
    hide PtrOk, Payloads, Books, ActiveOk, Inv, Deliver, FrameOf, TftpBytes, OnLine, XferOk, JustClosed, Reply, Serve;
    hide Arrived;
    AloneRuns(s.h, i, ph);
    AloneGoesOn(s.h, i, ph);
    ArrivesIntact(s.h, ph);
    GoingPacket(s.h, ph);
    PhaseBusy(s.h, i, ph);
    assert Allowed(s, WriteEnds);
    DeviceUnder(s, i, ph, WriteEnds);
    r := Next1(s, WriteEnds);
  }

  lemma PhaseBusy(h: H, i: nat, ph: Phase)
    requires Alone(h, i, ph) && h.serial != Idle
    ensures h.ioArg == Some(i)
  {
    hide XferOk;
  }

  /** A block after full ones is acknowledged. */
  lemma BlockAcked(s: Sys, i: nat)
    requires Under(s, i, DataOut) && s.h.serial.Pending? && s.h.serial.op.OpWrite?
    requires forall k :: 0 <= k < |s.h.transfers[i].acked| ==> |s.h.transfers[i].acked[k]| == TFTP_MAX_DATA_SIZE
    ensures Reply(s.sessions, OnLine(s.h.transfers[i], DataOut)) == AckBytes(Wire(|s.h.transfers[i].acked| + 1))
  {
    hide PtrOk, Payloads, Inv, XferOk, OnLine, AckBytes, ErrorBytes, ChunkOf, Unacked, JustClosed;
    PhaseBusy(s.h, i, DataOut);
    AloneXfer(s.h, i, DataOut);
    var t, ses := s.h.transfers[i], s.sessions[|s.sessions| - 1];
    assert OwnerOk(ses, s.owners[|s.owners| - 1], s.h.transfers);
    NextPayload(t);
    ChunkSmall(t);
    assert ses.got != [] ==> ses.got[|ses.got| - 1] == t.acked[|ses.got| - 1];
    StoreNext(ses, ChunkOf(t));
  }

  lemma AloneXfer(h: H, i: nat, ph: Phase)
    requires Alone(h, i, ph) && ph != Rest
    ensures XferOk(h.transfers[i], ph)
  {
    hide XferOk;
  }

  /** The oldest reply is read. It need not be the answer to the packet in flight. */
  lemma ReadUnder(s: Sys, i: nat, ph: Phase, b: word) returns (r: Sys)
    requires Under(s, i, ph) && s.h.serial == Pending(OpRead) && i < |s.h.transfers|
    requires s.line != [] && s.line[0] == AckBytes(b)
    requires s.h.transfers[i].state == DataSent ==> b == Wire(s.h.transfers[i].blknum)
    ensures Leads(s, r) && Under(r, i, ph) && r.h.transfers == s.h.transfers
    ensures r.h.serial.Replied? && r.h.serial.op.OpRead? && r.h.port != []
    ensures r.line == s.line[1..]
  {
    hide PtrOk, Payloads, SysInv, Extract, Image, ImageSize, IsImage, AckBytes, GetOpcode, GetBlknum, XferOk, Zeros;
    AloneGoesOn(s.h, i, ph);
    AckLength(b);
    var rest := ReplyImage(s);
    AckFields(b, rest);
    assert Allowed(s, PLAIN_READ);
    DeviceUnder(s, i, ph, PLAIN_READ);
    r := Next1(s, PLAIN_READ);
  }

  lemma AckLength(b: word)
    ensures |AckBytes(b)| == 4
  {
  }

  // ---------------------------------------------------------------------------------------
  // The files
  // ---------------------------------------------------------------------------------------

  /** How many files time out before the last one: one more than the last has blocks. */
  function Before(w: seq<seq<byte>>): nat {
    |Payloads(w)| + 1
  }

  /** File i before the last has i blocks of zeros, all but the last full. */
  function Padding(i: nat): seq<seq<byte>> {
    if i == 0 then [] else [Zeros(TFTP_MAX_DATA_SIZE * (i - 1) + 1)]
  }

  function Writes(w: seq<seq<byte>>, i: nat): seq<seq<byte>> {
    if i < Before(w) then Padding(i) else w
  }

  /** A payload of a padding file. */
  predicate Plain(c: seq<byte>) {
    |c| <= TFTP_MAX_DATA_SIZE && forall j :: 0 <= j < |c| ==> c[j] == 0
  }

  lemma {:induction false} ZeroChunks(i: nat)
    requires i > 0
    ensures var p := Chunks(Zeros(TFTP_MAX_DATA_SIZE * (i - 1) + 1));
            && |p| == i && (forall k :: 0 <= k < i ==> Plain(p[k]))
            && (forall k :: 0 <= k < i - 1 ==> |p[k]| == TFTP_MAX_DATA_SIZE)
  {
    var z := Zeros(TFTP_MAX_DATA_SIZE * (i - 1) + 1);
    if i > 1 {
      var rest := Zeros(TFTP_MAX_DATA_SIZE * (i - 2) + 1);
      assert z[TFTP_MAX_DATA_SIZE..] == rest;
      ZeroChunks(i - 1);
      assert Chunks(z) == [z[..TFTP_MAX_DATA_SIZE]] + Chunks(rest);
      assert Plain(z[..TFTP_MAX_DATA_SIZE]);
    } else {
      assert Chunks(z) == [z] && Plain(z);
    }
  }

  lemma PaddingPayloads(i: nat)
    ensures var p := Payloads(Padding(i));
            && |p| == i && (forall k :: 0 <= k < i ==> Plain(p[k]))
            && (forall k :: 0 <= k < i - 1 ==> |p[k]| == TFTP_MAX_DATA_SIZE)
  {
    hide Chunks, Plain, Zeros;
    if i > 0 {
      ZeroChunks(i);
      var z := Zeros(TFTP_MAX_DATA_SIZE * (i - 1) + 1);
      assert Padding(i) == [z] && Payloads([z]) == Chunks(z) + Payloads([z][1..]);
      assert Payloads([z][1..]) == [];
    }
  }

  lemma PlainFits(blknum: word, bytes: seq<byte>)
    requires |bytes| <= TFTP_MAX_DATA_SIZE && forall k :: 0 <= k < |bytes| ==> bytes[k] < 0xC0
    ensures Fits(TftpBytes(Data(blknum, bytes)))
  {
    PlainBytes(bytes);
    var payload := TftpBytes(Data(blknum, bytes));
    var n := |payload|;
    var headers := IpHeader(Checksum.BigEndian, UDP_HDR_LEN + n) + UdpHeader(Checksum.BigEndian, n);
    var front := headers + Wire16(OP_DATA) + Wire16(blknum);
    assert Datagram(Checksum.BigEndian, payload) == front + bytes;
    Slip.SpecialsConcat(front, bytes);
  }

  lemma AllFit(w: seq<seq<byte>>, i: nat)
    requires Fitting(w) && i <= Before(w)
    ensures FramesFit(Payloads(Writes(w, i))) && |Payloads(Writes(w, i))| <= MAX_BLOCKS
    ensures i < Before(w) ==> |Payloads(Writes(w, i))| == i
  {
    hide Fits, TftpBytes, Payloads, Padding, Plain;
    if i < Before(w) {
      PaddingPayloads(i);
      var p := Payloads(Padding(i));
      forall k | 0 <= k < |p|
        ensures Fits(TftpBytes(Data(Wire(k + 1), p[k])))
      {
        ZerosFit(Wire(k + 1), p[k]);
      }
    }
  }

  lemma ZerosFit(blknum: word, c: seq<byte>)
    requires Plain(c)
    ensures Fits(TftpBytes(Data(blknum, c)))
  {
    hide Fits, TftpBytes;
    PlainFits(blknum, c);
  }

  /** Block numbers of these files, which have at most 65535 blocks. */
  function Number(p: nat): word {
    if p <= MAX_BLOCKS then p else 0
  }

  lemma WireSmall(p: nat)
    requires p <= MAX_BLOCKS
    ensures Wire(p) == p == Number(p)
  {
  }

  /** Acknowledgements of the blocks from a up to, but not including, b. */
  function Acks(a: nat, b: nat): seq<seq<byte>>
    decreases b - a
  {
    if a < b then [AckBytes(Number(a))] + Acks(a + 1, b) else []
  }

  lemma {:induction false} AcksAppend(a: nat, b: nat)
    requires a <= b
    ensures Acks(a, b + 1) == Acks(a, b) + [AckBytes(Number(b))]
    decreases b - a
  {
    if a < b {
      AcksAppend(a + 1, b);
    }
  }

  /** File i is not waiting, those before it have failed, and those after it are open. */
  predicate Cast(w: seq<seq<byte>>, ts: seq<Ftx>, i: nat) {
    && Fitting(w) && i <= Before(w)
    && |ts| == Before(w) + 1 && (forall j :: 0 <= j < |ts| ==> ts[j].writes == Writes(w, j))
    && (forall j :: 0 <= j < i && j < |ts| ==> ts[j].state == Error)
    && (forall j :: i < j < |ts| ==> ts[j].state == Queued)
  }

  lemma CastKept(w: seq<seq<byte>>, h: H, r: H, i: nat)
    requires Cast(w, h.transfers, i) && OnlyAt(h, r, i)
    ensures Cast(w, r.transfers, i)
  {
    hide Writes;
  }

  /** The line while packet p of file i is on its way, or, with its answer, after it has arrived. Before the
      last file it holds what the file and its predecessors have left; then only its front matters. */
  predicate LineIs(w: seq<seq<byte>>, line: seq<seq<byte>>, i: nat, p: nat, answers: nat) {
    Acks(p, i) <= line && (i < Before(w) ==> line == Acks(p, i) + Acks(0, answers))
  }

  /** Packet p of file i has been written, and a read is outstanding. */
  predicate Waits(w: seq<seq<byte>>, s: Sys, i: nat, ph: Phase, p: nat) {
    && Under(s, i, ph) && Cast(w, s.h.transfers, i) && s.h.serial == Pending(OpRead) && i <= Before(w)
    && |SentTo(s.h.transfers[i], ph)| == p && LineIs(w, s.line, i, p, p + 1)
  }

  lemma NotEnded(h: H, r: H, i: nat, ph: Phase)
    requires i < |h.transfers| && Advances(h, r, i, ph, After1(h, i, ph)) && RankOf(h, i, ph) > 1
    requires |Payloads(h.transfers[i].writes)| <= MAX_BLOCKS
    ensures !Ended(r.transfers[i])
  {
    hide Payloads, Alone;
  }

  lemma RankIo(h: H, i: nat, ph: Phase)
    requires i < |h.transfers| && (ph == WrqOut || ph == DataOut || ph == Cont || ph == BufDone)
    ensures RankOf(h, i, ph) > 1
  {
    hide Cost;
  }

  /** A message that does not end the file is handled. */
  lemma PassOn(w: seq<seq<byte>>, s: Sys, i: nat, ph: Phase) returns (r: Sys, next: Phase)
    requires Under(s, i, ph) && Cast(w, s.h.transfers, i) && s.h.port != [] && RankOf(s.h, i, ph) > 1
    ensures Leads(s, r) && next == After1(s.h, i, ph) && Under(r, i, next)
    ensures Cast(w, r.h.transfers, i) && r.line == s.line
    ensures r.h.transfers[i].acked == AckedBy(s.h, i, ph)
    ensures !r.h.serial.Replied? && (r.h.serial.Pending? ==> (r.h.serial.op == OpRead <==> s.h.serial.Replied?))
  {
    hide Under, Payloads, PtrOk, Writes, Alone, AckedBy, WellDone, Overrun, RankOf;
    AllFit(w, i);
    r, next := PassUnder(w, s, i, ph);
    NotEnded(s.h, r.h, i, ph);
    CastKept(w, s.h, r.h, i);
  }

  /** The packet in flight arrives, its completion is handled, and the next read is outstanding. */
  lemma Arrives(w: seq<seq<byte>>, s: Sys, i: nat, ph: Phase, p: nat) returns (r: Sys)
    requires Under(s, i, ph) && Cast(w, s.h.transfers, i) && s.h.serial.Pending? && s.h.serial.op.OpWrite?
    requires (ph == WrqOut || ph == DataOut) && |SentTo(s.h.transfers[i], ph)| == p && LineIs(w, s.line, i, p, p)
    requires i < Before(w) ==> p <= i
    ensures Leads(s, r) && Waits(w, r, i, ph, p)
  {
    hide Under, Payloads, PtrOk, XferOk, Writes, AckBytes, Reply, OnLine, ChunkOf, RankOf, Alone, SysInv, Leads, Cast;
    UnderFacts(s, i, ph);
    CastWrites(w, s.h.transfers, i);
    var a := WriteUnder(s, i, ph);
    if i < Before(w) {
      AnswerIs(w, s, i, ph, p);
      AcksAppend(0, p);
    }
    UnderFacts(a, i, ph);
    RankIo(a.h, i, ph);
    var next;
    r, next := PassOn(w, a, i, ph);
    UnderFacts(r, i, ph);
    LeadsTwice(s, a, r);
  }

  lemma UnderFacts(s: Sys, i: nat, ph: Phase)
    requires Under(s, i, ph)
    ensures s.h.running && PtrOk(s.h) && i < |s.h.transfers| && SysInv(s, ph) && Alone(s.h, i, ph)
    ensures ph != Rest ==> XferOk(s.h.transfers[i], ph)
    ensures (s.h.serial != Idle <==> ph == WrqOut || ph == DataOut) && s.h.port == Queue(s.h, i, ph)
  {
  }

  lemma AnswerIs(w: seq<seq<byte>>, s: Sys, i: nat, ph: Phase, p: nat)
    requires Under(s, i, ph) && Cast(w, s.h.transfers, i) && s.h.serial.Pending?
    requires s.h.serial.op.OpWrite? && i < Before(w)
    requires (ph == WrqOut || ph == DataOut) && |SentTo(s.h.transfers[i], ph)| == p <= i
    ensures Reply(s.sessions, OnLine(s.h.transfers[i], ph)) == AckBytes(Number(p))
  {
    hide Under, Payloads, AckBytes, Reply, ChunkOf, Writes, Zeros, OnLine, XferOk, Alone, SysInv, PtrOk;
    UnderFacts(s, i, ph);
    var t := s.h.transfers[i];
    PacketNumber(t, ph);
    CastWrites(w, s.h.transfers, i);
    WireSmall(p);
    if ph == WrqOut {
      OnLineKind(t, ph);
      RequestAcked(s.sessions, t.name);
    } else {
      NextPayload(t);
      EarlierFull(w, t, i);
      BlockAcked(s, i);
    }
  }

  lemma RequestAcked(sessions: seq<Session>, name: seq<byte>)
    ensures Reply(sessions, Wrq(name)) == AckBytes(Wire(0))
  {
  }

  /** Only the last block of a file before the last is short. */
  lemma EarlierFull(w: seq<seq<byte>>, t: Ftx, i: nat)
    requires i < Before(w) && t.writes == Writes(w, i) && |t.acked| < i && t.acked <= Payloads(t.writes)
    ensures forall k :: 0 <= k < |t.acked| ==> |t.acked[k]| == TFTP_MAX_DATA_SIZE
  {
    hide Payloads, Padding, Plain;
    PaddingPayloads(i);
  }

  /** From one message to the next packet. */
  lemma Proceeds(w: seq<seq<byte>>, s: Sys, i: nat, ph: Phase) returns (r: Sys)
    requires Under(s, i, ph) && Cast(w, s.h.transfers, i) && (ph == Next || ph == Cont || ph == BufDone)
    requires |s.h.transfers[i].acked| < |Payloads(Writes(w, i))|
    ensures Leads(s, r) && Under(r, i, DataOut) && Cast(w, r.h.transfers, i) && r.line == s.line
    ensures r.h.serial.Pending? && r.h.serial.op.OpWrite?
    ensures |SentTo(r.h.transfers[i], DataOut)| == |s.h.transfers[i].acked| + 1
    decreases if ph == BufDone then 1 else 0
  {
    hide Under, Payloads, Handle, PtrOk, XferOk, Writes, ChunkOf;
    UnderFacts(s, i, ph);
    AllFit(w, i);
    StillToSend(s.h.transfers[i], ph);
    TokenThere(ph, i);
    ProceedsRank(s.h, i, ph);
    var a, next := PassOn(w, s, i, ph);
    UnderFacts(a, i, next);
    r := a;
    if ph == BufDone {
      r := Proceeds(w, a, i, next);
      LeadsTwice(s, a, r);
    }
  }

  lemma TokenThere(ph: Phase, i: nat)
    ensures ph == Next || ph == Cont || ph == BufDone ==> Token(ph, i) != []
  {
  }

  lemma StillToSend(t: Ftx, ph: Phase)
    requires XferOk(t, ph) && |t.acked| < |Payloads(t.writes)|
    ensures ph == Next ==> t.buffers != []
  {
    assert t.buffers == [] ==> Payloads(BytesOf(t.buffers)) == [];
  }

  lemma ProceedsRank(h: H, i: nat, ph: Phase)
    requires i < |h.transfers| && (ph == Next || ph == Cont || ph == BufDone)
    requires ph == Next ==> h.transfers[i].buffers != []
    ensures RankOf(h, i, ph) > 1
  {
  }

  /** A reply is read and taken for the answer to packet p, and packet p + 1 is sent. */
  lemma OneMore(w: seq<seq<byte>>, s: Sys, i: nat, ph: Phase, p: nat) returns (r: Sys)
    requires Waits(w, s, i, ph, p) && p < i && p < |Payloads(Writes(w, i))| && (ph == WrqOut || ph == DataOut)
    ensures Leads(s, r) && Waits(w, r, i, DataOut, p + 1)
  {
    hide Under, Payloads, Handle, PtrOk, XferOk, Writes, AckBytes, ChunkOf;
    var a, next := TakesAnswer(w, s, i, ph, p);
    var b := Proceeds(w, a, i, next);
    r := Arrives(w, b, i, DataOut, p + 1);
    LeadsTwice(s, a, b);
    LeadsTwice(s, b, r);
  }

  lemma TakesAnswer(w: seq<seq<byte>>, s: Sys, i: nat, ph: Phase, p: nat) returns (r: Sys, next: Phase)
    requires Waits(w, s, i, ph, p) && p < i && (ph == WrqOut || ph == DataOut)
    ensures Leads(s, r) && Under(r, i, next) && Cast(w, r.h.transfers, i)
    ensures next == Next || next == Cont || next == BufDone
    ensures |r.h.transfers[i].acked| == p && LineIs(w, r.line, i, p + 1, p + 1)
  {
    hide Under, Payloads, PtrOk, XferOk, Writes, AckBytes, ChunkOf, RankOf, Alone, SysInv, Leads, Cast, LineIs;
    hide Number, Wire, After1, AckedBy, Queue;
    UnderFacts(s, i, ph);
    CastWrites(w, s.h.transfers, i);
    PacketNumber(s.h.transfers[i], ph);
    WireSmall(p);
    FrontAnswer(w, s.line, i, p);
    var a := ReadUnder(s, i, ph, p);
    UnderFacts(a, i, ph);
    RankIo(a.h, i, ph);
    AnswerCounts(a.h, i, ph);
    r, next := PassOn(w, a, i, ph);
    LeadsTwice(s, a, r);
  }

  /** The answer at the front of the line, and the line without it. */
  lemma FrontAnswer(w: seq<seq<byte>>, line: seq<seq<byte>>, i: nat, p: nat)
    requires LineIs(w, line, i, p, p + 1) && p < i
    ensures line != [] && line[0] == AckBytes(Number(p)) && LineIs(w, line[1..], i, p + 1, p + 1)
  {
    hide AckBytes, Number;
  }

  /** Taking an answer acknowledges the packet in flight. */
  lemma AnswerCounts(h: H, i: nat, ph: Phase)
    requires i < |h.transfers| && (ph == WrqOut || ph == DataOut) && h.serial.Replied? && h.serial.op.OpRead?
    ensures After1(h, i, ph) == Next || After1(h, i, ph) == Cont || After1(h, i, ph) == BufDone
    ensures |AckedBy(h, i, ph)| == |SentTo(h.transfers[i], ph)|
  {
    hide ChunkOf, Payloads;
  }

  lemma CastWrites(w: seq<seq<byte>>, ts: seq<Ftx>, i: nat)
    requires Cast(w, ts, i)
    ensures Fitting(w) && i < |ts| == Before(w) + 1 && ts[i].writes == Writes(w, i)
  {
    hide Writes;
  }

  lemma PacketNumber(t: Ftx, ph: Phase)
    requires XferOk(t, ph) && (ph == WrqOut || ph == DataOut)
    ensures t.blknum == |SentTo(t, ph)| && (ph == WrqOut ==> t.state == WrqSent && t.acked == [])
  {
    hide Unacked, Payloads, ChunkOf;
  }

  // ---------------------------------------------------------------------------------------
  // Between the files
  // ---------------------------------------------------------------------------------------

  /** The handler waits for clients. */
  predicate Quiet(s: Sys) {
    && SysInv(s, Rest) && s.h.running && PtrOk(s.h) && s.h.port == [] && !s.h.busy && s.h.serial == Idle
  }

  /** The first i files have failed, and their answers are on the line; the others are open. */
  predicate Pause(w: seq<seq<byte>>, s: Sys, i: nat) {
    && Fitting(w) && i <= Before(w)
    && Quiet(s) && |s.h.transfers| == Before(w) + 1 && s.line == Acks(0, i)
    && forall j :: 0 <= j < |s.h.transfers| ==>
         s.h.transfers[j].writes == Writes(w, j) && s.h.transfers[j].state == if j < i then Error else Queued
  }

  lemma PlainPass(s: Sys, ph: Phase) returns (r: Sys, next: Phase)
    requires SysInv(s, ph) && s.h.running && PtrOk(s.h) && s.h.port != [] && !s.h.port[0].Write?
    requires s.h.port[0].TimerReply? ==> s.h.local == s.h.ioArg
    ensures Leads(s, r) && SysInv(r, next) && r.line == s.line && r.h == Handle(s.h, FullPass(s.h))
  {
    hide SysInv, PtrOk, FitsTold, Outgoing, Fits, TftpBytes, Handle;
    FullPassTold(s.h);
    r, next := PassStepUnder(s, ph, FullPass(s.h));
  }

  lemma ClientEvent(s: Sys, ph: Phase, m: Msg<nat>) returns (r: Sys)
    requires SysInv(s, ph) && s.h.running && PtrOk(s.h) && KindOf(m) == Client && Points(m, |s.h.transfers|)
    requires m.Write? || m.End? ==> s.h.transfers[m.ftx].state == Queued && End(m.ftx) !in s.h.port
    ensures Leads(s, r) && SysInv(r, ph) && r.line == s.line && r.h == s.h.(port := s.h.port + [m]) && PtrOk(r.h)
  {
    hide SysInv, PtrOk;
    var ev := ClientMsg(m);
    assert Allowed(s, ev);
    SysStep(s, ph, ev);
    LeadsOne(s, ev);
    r := Next1(s, ev);
  }

  /** A handler that is not busy is at rest. */
  lemma NotBusy(s: Sys, ph: Phase)
    requires SysInv(s, ph) && s.h.running && !s.h.busy
    ensures ph == Rest
  {
    hide Books, ActiveOk, Signals, QueueOk, XferOk, RestOk;
  }

  lemma TimeoutEffect(h: H, i: nat, net: Net)
    requires PtrOk(h) && h.port == [TimerReply] && h.local == Some(i) && i < |h.transfers|
    ensures var r := Handle(h, net);
            && r.port == [FileFailed(i)] && !r.busy && r.serial == Idle && r.running == h.running && PtrOk(r)
            && r.transfers == h.transfers[i := h.transfers[i].(state := Error, error := ERROR_IO_TIMEOUT)]
  {
    hide PtrOk, HasInternal;
    assert h.port[1..] == [];
  }

  lemma FailedEffect(h: H, i: nat, net: Net)
    requires PtrOk(h) && h.port == [FileFailed(i)] && i < |h.transfers|
    ensures var r, t := Handle(h, net), h.transfers[i];
            && r.port == [SendNextFile] && r.busy == h.busy && r.serial == h.serial && r.running == h.running
            && PtrOk(r)
            && r.transfers == h.transfers[i := t.(buffers := [], dropped := t.dropped + Unacked(t.buffers))]
  {
    hide PtrOk, HasInternal, Unacked;
    assert h.port[1..] == [];
  }

  lemma NothingReady(h: H, net: Net)
    requires PtrOk(h) && h.port == [SendNextFile] && !h.busy && NextReady(h.transfers, 0) == None
    ensures Handle(h, net) == h.(port := [], local := None) && PtrOk(Handle(h, net))
  {
    hide PtrOk;
    assert h.port[1..] == [];
  }

  /** The timer expires while the read is outstanding. */
  lemma Expires(s: Sys, i: nat, ph: Phase) returns (r: Sys)
    requires Under(s, i, ph) && ph != Rest && s.h.serial == Pending(OpRead)
    ensures Leads(s, r) && SysInv(r, ph) && r.line == s.line && PtrOk(r.h) && i < |s.h.transfers|
    ensures r.h == s.h.(timer := Fired, port := [TimerReply]) && s.h.local == s.h.ioArg == Some(i) && s.h.running
  {
    hide SysInv, PtrOk, Payloads, XferOk;
    TimerRuns(s, ph);
    assert Allowed(s, TimerEnds);
    SysStep(s, ph, TimerEnds);
    LeadsOne(s, TimerEnds);
    r := Next1(s, TimerEnds);
  }

  lemma TimerRuns(s: Sys, ph: Phase)
    requires SysInv(s, ph) && s.h.running && s.h.serial.Pending? && s.h.port == []
    ensures s.h.timer == Running
  {
    hide Books, ActiveOk, QueueOk, XferOk, RestOk;
  }

  /** A file whose last answer is still on the line times out. */
  lemma TimesOut(w: seq<seq<byte>>, s: Sys, i: nat, ph: Phase) returns (r: Sys)
    requires Waits(w, s, i, ph, i) && i < Before(w) && ph != Rest
    ensures Leads(s, r) && Pause(w, r, i + 1)
  {
    hide Under, SysInv, Leads, PtrOk, Handle, Writes, AckBytes, Payloads, Cast;
    UnderFacts(s, i, ph);
    var a := Expires(s, i, ph);
    var b, next := PlainPass(a, ph);
    TimeoutEffect(a.h, i, FullPass(a.h));
    CastFailed(w, s.h.transfers, i, b.h.transfers[i]);
    r := Clears(w, b, i, next);
    LeadsTwice(s, a, b);
    LeadsTwice(s, b, r);
    assert Acks(i, i) == [];
  }

  lemma CastFailed(w: seq<seq<byte>>, ts: seq<Ftx>, i: nat, t: Ftx)
    requires Cast(w, ts, i) && t.writes == ts[i].writes
    ensures Cast(w, ts[i := t], i)
  {
    hide Writes;
  }

  /** The failed file is cleared away, and no other is ready. */
  lemma Clears(w: seq<seq<byte>>, s: Sys, i: nat, ph: Phase) returns (r: Sys)
    requires SysInv(s, ph) && s.h.running && PtrOk(s.h) && s.h.port == [FileFailed(i)] && !s.h.busy
    requires s.h.serial == Idle
    requires Cast(w, s.h.transfers, i) && i < Before(w) && s.h.transfers[i].state == Error && s.line == Acks(0, i + 1)
    ensures Leads(s, r) && Pause(w, r, i + 1)
  {
    hide SysInv, Leads, PtrOk, Handle, Writes, Acks, Cast;
    CastWrites(w, s.h.transfers, i);
    var a, p1 := PlainPass(s, ph);
    FailedEffect(s.h, i, FullPass(s.h));
    CastFailed(w, s.h.transfers, i, a.h.transfers[i]);
    NoneReady(w, a.h.transfers, i);
    var p2;
    r, p2 := PlainPass(a, p1);
    NothingReady(a.h, FullPass(a.h));
    NotBusy(r, p2);
    CastMoves(w, r.h.transfers, i);
    LeadsTwice(s, a, r);
  }

  lemma CastMoves(w: seq<seq<byte>>, ts: seq<Ftx>, i: nat)
    requires Cast(w, ts, i) && i < Before(w) && ts[i].state == Error
    ensures |ts| == Before(w) + 1
    ensures forall j :: 0 <= j < |ts| ==>
              ts[j].writes == Writes(w, j) && ts[j].state == if j < i + 1 then Error else Queued
  {
    hide Writes;
  }

  lemma NoneReady(w: seq<seq<byte>>, ts: seq<Ftx>, i: nat)
    requires Cast(w, ts, i) && ts[i].state == Error
    ensures NextReady(ts, 0) == None
  {
    hide Writes;
  }

  /** File i is closed and its write request sent. */
  lemma Closes(w: seq<seq<byte>>, s: Sys, i: nat) returns (r: Sys)
    requires Pause(w, s, i)
    ensures Leads(s, r) && Waits(w, r, i, WrqOut, 0)
  {
    hide Under, SysInv, Leads, PtrOk, Handle, Writes, AckBytes, Payloads, LineIs;
    var a := ClientEvent(s, Rest, End(i));
    OpenIsUntouched(w, s, i);
    var b, p1 := PlainPass(a, Rest);
    EndEffect(a.h, i, FullPass(a.h));
    NotBusy(b, p1);
    AllFit(w, i);
    StartsUnder(b, i);
    RestRank(b.h, i);
    var c, next := PassOn(w, b, i, Rest);
    UnderFacts(c, i, next);
    PacketNumber(c.h.transfers[i], next);
    LineAtStart(w, c.line, i);
    r := Arrives(w, c, i, WrqOut, 0);
    LeadsTwice(s, a, b);
    LeadsTwice(s, b, c);
    LeadsTwice(s, c, r);
  }

  lemma LineAtStart(w: seq<seq<byte>>, line: seq<seq<byte>>, i: nat)
    requires line == Acks(0, i)
    ensures LineIs(w, line, i, 0, 0)
  {
    assert Acks(0, 0) == [] && line + [] == line;
  }

  lemma OpenIsUntouched(w: seq<seq<byte>>, s: Sys, i: nat)
    requires Pause(w, s, i)
    ensures Untouched(s.h.transfers[i])
    ensures forall j :: 0 <= j < |s.h.transfers| ==> s.h.transfers[j].state != Ready
  {
    hide Writes, Books, ActiveOk, Signals, QueueOk, Payloads, Unacked;
  }

  lemma EndEffect(h: H, i: nat, net: Net)
    requires h.running && PtrOk(h) && !h.busy && h.serial == Idle && h.port == [End(i)]
    requires i < |h.transfers| && Untouched(h.transfers[i])
    requires forall j :: 0 <= j < |h.transfers| ==> h.transfers[j].state != Ready
    ensures var r := Handle(h, net);
            && JustClosed(r, i) && r.running && !r.busy
            && r.transfers == h.transfers[i := h.transfers[i].(state := Ready)]
  {
    hide PtrOk, HasInternal, JustClosed;
    CloseStarts(h, i, net);
    assert h.port[1..] == [];
  }

  lemma StartsUnder(s: Sys, i: nat)
    requires SysInv(s, Rest) && JustClosed(s.h, i) && i < |s.h.transfers|
    ensures Under(s, i, Rest) && s.h.port != []
  {
    hide SysInv, Payloads;
    StartsAlone(s.h, i);
  }

  lemma RestRank(h: H, i: nat)
    requires i < |h.transfers|
    ensures RankOf(h, i, Rest) > 1
  {
  }

  // ---------------------------------------------------------------------------------------
  // The last file
  // ---------------------------------------------------------------------------------------

  /** File i is reported as finished. */
  predicate Reported(w: seq<seq<byte>>, ts: seq<Ftx>, i: nat) {
    i < |ts| && ts[i].state == Finished && ts[i].writes == Writes(w, i)
  }

  /** With every payload acknowledged, a file is soon finished. */
  lemma Winds(w: seq<seq<byte>>, s: Sys, i: nat, ph: Phase) returns (r: Sys)
    requires Under(s, i, ph) && Cast(w, s.h.transfers, i) && (ph == Next || ph == Cont || ph == BufDone)
    requires |s.h.transfers[i].acked| == |Payloads(Writes(w, i))|
    ensures Leads(s, r) && Reported(w, r.h.transfers, i)
    decreases if ph == BufDone then 1 else 0
  {
    hide Under, Payloads, Writes, Alone, SysInv, PtrOk;
    UnderFacts(s, i, ph);
    AllFit(w, i);
    CastWrites(w, s.h.transfers, i);
    AllSent(s.h.transfers[i], ph);
    TokenThere(ph, i);
    if ph == BufDone {
      ProceedsRank(s.h, i, ph);
      var a, next := PassOn(w, s, i, ph);
      r := Winds(w, a, i, next);
      LeadsTwice(s, a, r);
    } else {
      var next;
      r, next := PassUnder(w, s, i, ph);
      LastPass(s.h, r.h, i);
    }
  }

  lemma AllSent(t: Ftx, ph: Phase)
    requires XferOk(t, ph) && |t.acked| == |Payloads(t.writes)|
    ensures ph != Cont && (ph == Next ==> t.buffers == [])
  {
    var queued := BytesOf(t.buffers);
    assert queued != [] ==> Payloads(queued) == Chunks(queued[0]) + Payloads(queued[1..]);
  }

  lemma LastPass(h: H, r: H, i: nat)
    requires i < |h.transfers| && Advances(h, r, i, Next, After1(h, i, Next)) && h.transfers[i].buffers == []
    requires |Payloads(h.transfers[i].writes)| <= MAX_BLOCKS
    ensures i < |r.transfers| == |h.transfers| && r.transfers[i].state == Finished
    ensures r.transfers[i].writes == h.transfers[i].writes
  {
    hide Payloads, Alone;
    LastRank(h.transfers[i]);
    if !Ended(r.transfers[i]) {
      AloneGoesOn(r, i, After1(h, i, Next));
    }
  }

  /** The phase while packet p is on its way. */
  function PhaseOf(p: nat): Phase {
    if p == 0 then WrqOut else DataOut
  }

  /** File i gets from packet p to packet q on stale replies. */
  lemma {:induction false} Sends(w: seq<seq<byte>>, s: Sys, i: nat, p: nat, q: nat) returns (r: Sys)
    requires Waits(w, s, i, PhaseOf(p), p) && p <= q <= i && q <= |Payloads(Writes(w, i))|
    ensures Leads(s, r) && Waits(w, r, i, PhaseOf(q), q)
    decreases q - p
  {
    hide Waits, Writes, Payloads, Leads;
    if p == q {
      LeadsNowhere(s);
      r := s;
    } else {
      var a := OneMore(w, s, i, PhaseOf(p), p);
      r := Sends(w, a, i, p + 1, q);
      LeadsTwice(s, a, r);
    }
  }

  /** The files before the last time out one after the other. */
  lemma {:induction false} AllTimeOut(w: seq<seq<byte>>, s: Sys, i: nat) returns (r: Sys)
    requires Pause(w, s, i) && i <= Before(w)
    ensures Leads(s, r) && Pause(w, r, Before(w))
    decreases Before(w) - i
  {
    hide Pause, Waits, Writes, Payloads, Leads, LineIs;
    if i == Before(w) {
      LeadsNowhere(s);
      r := s;
    } else {
      PauseFits(w, s, i);
      AllFit(w, i);
      var a := Closes(w, s, i);
      var b := Sends(w, a, i, 0, i);
      var c := TimesOut(w, b, i, PhaseOf(i));
      r := AllTimeOut(w, c, i + 1);
      LeadsTwice(s, a, b);
      LeadsTwice(s, b, c);
      LeadsTwice(s, c, r);
    }
  }

  lemma PauseFits(w: seq<seq<byte>>, s: Sys, i: nat)
    requires Pause(w, s, i)
    ensures Fitting(w) && i <= Before(w)
  {
    hide Writes;
  }

  /** The last packet of the last file is on its way, each one before it having been acknowledged by a
      stale reply. */
  lemma LastSends(w: seq<seq<byte>>, s: Sys) returns (r: Sys)
    requires Pause(w, s, Before(w)) && Payloads(w) != []
    ensures Leads(s, r) && Waits(w, r, Before(w), DataOut, |Payloads(w)|)
  {
    hide Pause, Waits, Payloads, Leads, LineIs;
    PauseFits(w, s, Before(w));
    var a := Closes(w, s, Before(w));
    r := Sends(w, a, Before(w), 0, |Payloads(w)|);
    LeadsTwice(s, a, r);
  }

  /** And a stale reply acknowledges that one too. */
  lemma LastEnds(w: seq<seq<byte>>, s: Sys) returns (r: Sys)
    requires Waits(w, s, Before(w), DataOut, |Payloads(w)|) && Payloads(w) != []
    ensures Leads(s, r) && Reported(w, r.h.transfers, Before(w))
  {
    hide Waits, Under, Cast, Payloads, Leads, LineIs;
    var a, next := TakesAnswer(w, s, Before(w), DataOut, |Payloads(w)|);
    r := Winds(w, a, Before(w), next);
    LeadsTwice(s, a, r);
  }

  // ---------------------------------------------------------------------------------------
  // The files are opened and written
  // ---------------------------------------------------------------------------------------

  /** Files with these buffers are open, and nothing has happened yet. */
  predicate Desk(s: Sys, files: seq<seq<seq<byte>>>) {
    && Quiet(s) && s.line == [] && |s.h.transfers| == |files|
    && forall j :: 0 <= j < |files| ==> s.h.transfers[j].state == Queued && s.h.transfers[j].writes == files[j]
  }

  lemma Opens(s: Sys, files: seq<seq<seq<byte>>>) returns (r: Sys)
    requires Desk(s, files)
    ensures Leads(s, r) && Desk(r, files + [[]])
  {
    hide SysInv, Leads, PtrOk, Handle;
    var m := FindOutput([97]);
    var a := ClientEvent(s, Rest, m);
    var next;
    r, next := WithMemory(a);
    OpenEffect(a.h, [97], Net(true, false));
    NotBusy(r, next);
    LeadsTwice(s, a, r);
  }

  lemma WritesTo(s: Sys, files: seq<seq<seq<byte>>>, i: nat, bytes: seq<byte>) returns (r: Sys)
    requires Desk(s, files) && i < |files|
    ensures Leads(s, r) && Desk(r, files[i := files[i] + [bytes]])
  {
    hide SysInv, Leads, PtrOk, Handle;
    var a := ClientEvent(s, Rest, Write(i, bytes));
    var next;
    r, next := WithMemory(a);
    WriteEffect(a.h, i, bytes, Net(true, false));
    NotBusy(r, next);
    LeadsTwice(s, a, r);
  }

  lemma WithMemory(s: Sys) returns (r: Sys, next: Phase)
    requires SysInv(s, Rest) && s.h.running && PtrOk(s.h) && s.h.port != []
    requires s.h.port[0].FindOutput? || s.h.port[0].Write?
    ensures Leads(s, r) && SysInv(r, next) && r.line == s.line && r.h == Handle(s.h, Net(true, false))
  {
    hide SysInv, PtrOk, Handle;
    r, next := PassStepUnder(s, Rest, Net(true, false));
  }

  lemma OpenEffect(h: H, name: CString, net: Net)
    requires PtrOk(h) && h.port == [FindOutput(name)] && net.mem
    ensures Handle(h, net) == h.(port := [], transfers := h.transfers + [NewFtx(name)]) && PtrOk(Handle(h, net))
    ensures NewFtx(name).state == Queued && NewFtx(name).writes == []
  {
    hide PtrOk;
    assert h.port[1..] == [];
  }

  lemma WriteEffect(h: H, i: nat, bytes: seq<byte>, net: Net)
    requires PtrOk(h) && h.port == [Write(i, bytes)] && net.mem && i < |h.transfers|
    ensures Handle(h, net) == h.(port := [], transfers := h.transfers[i := Written(h.transfers[i], bytes)])
    ensures PtrOk(Handle(h, net))
  {
    hide PtrOk, HasInternal;
    assert h.port[1..] == [];
  }

  /** The system at the start. */
  function Start(): (s: Sys)
    ensures InitialSys(s)
  {
    var h := H([], true, false, [], NoIo, None, None, Idle, Stopped, Zeros(4), [], false, false, false, false);
    Sys(h, [], [], [], {})
  }

  /** The first j files are written, the others still empty. */
  function Drafts(w: seq<seq<byte>>, j: nat): seq<seq<seq<byte>>> {
    seq(Before(w) + 1, k requires 0 <= k => if k < j then Writes(w, k) else [])
  }

  function Empty(n: nat): seq<seq<seq<byte>>> {
    seq(n, k => [])
  }

  lemma {:induction false} OpensAll(s: Sys, n: nat, m: nat) returns (r: Sys)
    requires Desk(s, Empty(n)) && n <= m
    ensures Leads(s, r) && Desk(r, Empty(m))
    decreases m - n
  {
    hide Desk, Leads;
    if n == m {
      LeadsNowhere(s);
      r := s;
    } else {
      var a := Opens(s, Empty(n));
      assert Empty(n) + [[]] == Empty(n + 1);
      r := OpensAll(a, n + 1, m);
      LeadsTwice(s, a, r);
    }
  }

  lemma {:induction false} WritesAll(s: Sys, files: seq<seq<seq<byte>>>, i: nat, bufs: seq<seq<byte>>) returns (r: Sys)
    requires Desk(s, files) && i < |files|
    ensures Leads(s, r) && Desk(r, files[i := files[i] + bufs])
    decreases |bufs|
  {
    hide Desk, Leads;
    if bufs == [] {
      LeadsNowhere(s);
      assert files[i] + [] == files[i] && files[i := files[i]] == files;
      r := s;
    } else {
      var a := WritesTo(s, files, i, bufs[0]);
      var more := files[i := files[i] + [bufs[0]]];
      r := WritesAll(a, more, i, bufs[1..]);
      assert [bufs[0]] + bufs[1..] == bufs;
      assert files[i] + [bufs[0]] + bufs[1..] == files[i] + bufs;
      assert more[i := more[i] + bufs[1..]] == files[i := files[i] + bufs];
      LeadsTwice(s, a, r);
    }
  }

  lemma {:induction false} Fills(w: seq<seq<byte>>, s: Sys, j: nat) returns (r: Sys)
    requires Desk(s, Drafts(w, j)) && j <= Before(w) + 1
    ensures Leads(s, r) && Desk(r, Drafts(w, Before(w) + 1))
    decreases Before(w) + 1 - j
  {
    hide Desk, Leads, Writes;
    if j == Before(w) + 1 {
      LeadsNowhere(s);
      r := s;
    } else {
      var a := WritesAll(s, Drafts(w, j), j, Writes(w, j));
      var draft := Drafts(w, j)[j];
      assert draft + Writes(w, j) == Writes(w, j);
      assert Drafts(w, j)[j := draft + Writes(w, j)] == Drafts(w, j + 1);
      r := Fills(w, a, j + 1);
      LeadsTwice(s, a, r);
    }
  }

  lemma NoDrafts(s: Sys)
    requires Desk(s, [])
    ensures Desk(s, Empty(0))
  {
    hide Quiet;
  }

  lemma StartsQuiet()
    ensures Desk(Start(), [])
  {
    InitSysInv(Start());
  }

  lemma Prepares(w: seq<seq<byte>>) returns (r: Sys)
    requires Fitting(w)
    ensures Leads(Start(), r) && Pause(w, r, 0)
  {
    hide Desk, Leads, Start, Writes, Fitting;
    StartsQuiet();
    NoDrafts(Start());
    var a := OpensAll(Start(), 0, Before(w) + 1);
    assert Empty(Before(w) + 1) == Drafts(w, 0);
    r := Fills(w, a, 0);
    DeskIsPause(w, r);
    LeadsTwice(Start(), a, r);
  }

  lemma DeskIsPause(w: seq<seq<byte>>, s: Sys)
    requires Desk(s, Drafts(w, Before(w) + 1)) && Fitting(w)
    ensures Pause(w, s, 0)
  {
    hide Quiet, Writes, Fitting;
  }
}

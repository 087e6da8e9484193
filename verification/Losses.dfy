/** Delivery over a line that loses frames. A write that a timeout aborts may have sent part of its frame;
    those bytes stand in front of the next frame, and the server drops both as one packet with a wrong
    length. Here any frame may be lost, and a read may bring anything at all. */
module Losses {
  import opened Bytes
  import opened Messages
  import opened Packets
  import opened Engine
  import opened Files
  import opened Ownership
  import opened Effects
  import opened Overtaking
  import opened Server
  import opened Intake
  import opened Delivery

  /** The handler and the server; owners names the transfer of each session. As history, missed says that
      the write request last sent was lost. */
  datatype Lossy = Lossy(h: H, sessions: seq<Session>, owners: seq<nat>, missed: bool)

  /** A move of the handler's world; if it is the end of a write, the frame may be lost. */
  datatype Change = Change(move: Move, lost: bool)

  predicate CanChange(s: Lossy, c: Change) {
    PtrOk(s.h) && Possible(s.h, c.move) && Orderly(s.h, c.move)
  }

  function Changed(s: Lossy, c: Change): Lossy
    requires CanChange(s, c)
  {
    var h1 := Apply(s.h, c.move);
    if !c.move.WriteDone? then s.(h := h1)
    else if c.lost then s.(h := h1, missed := s.missed || s.h.serial.op.data.Wrq?)
    else
      match Arrived(s.h)
      case None => s.(h := h1)
      case Some(p) => Lossy(h1, Serve(s.sessions, p), OwnersAfter(s.h, s.owners, p), s.missed && !p.Wrq?)
  }

  function OwnersAfter(h: H, owners: seq<nat>, p: Packet): seq<nat> {
    if p.Wrq? && h.ioArg.Some? then owners + [h.ioArg.value] else owners
  }

  predicate DataArrives(s: Lossy, c: Change) {
    && c.move.WriteDone? && !c.lost
    && s.h.serial.Pending? && s.h.serial.op.OpWrite? && s.h.serial.op.data.Data?
  }

  /** A DATA packet arrives whose write request was lost. */
  predicate Strays(s: Lossy, c: Change) {
    s.missed && DataArrives(s, c)
  }

  // ---------------------------------------------------------------------------------------
  // The invariant
  // ---------------------------------------------------------------------------------------

  /** The payloads that may have arrived for the active transfer. */
  function Offered(t: Ftx, ph: Phase, stage: Stage): nat {
    |t.acked| + if ph == DataOut && stage != Going then 1 else 0
  }

  /** The last session is that of transfer i, and holds at most n payloads. */
  predicate Mine(sessions: seq<Session>, owners: seq<nat>, i: nat, n: nat) {
    && owners != [] && |owners| == |sessions| && owners[|owners| - 1] == i && |sessions[|sessions| - 1].got| <= n
  }

  /** The server has a session for the active transfer exactly if its request has arrived, and it is the
      last one. */
  predicate ActiveLoss(s: Lossy, ph: Phase) {
    ph != Rest ==>
      && s.h.ioArg.Some? && s.h.ioArg.value < |s.h.transfers|
      && if s.missed || (ph == WrqOut && StageOf(s.h.serial) == Going) then s.h.ioArg.value !in s.owners
         else Mine(s.sessions, s.owners, s.h.ioArg.value,
                   Offered(s.h.transfers[s.h.ioArg.value], ph, StageOf(s.h.serial)))
  }

  predicate LossInv(s: Lossy, ph: Phase) {
    Archive(s.sessions, s.owners, s.h.transfers) && Fine(s.h, ph) && (s.h.running ==> ActiveLoss(s, ph))
  }

  // ---------------------------------------------------------------------------------------
  // Passes
  // ---------------------------------------------------------------------------------------

  lemma PassArchive(s: Lossy, ph: Phase, net: Net)
    requires PtrOk(s.h) && s.h.port != [] && Inv(s.h, ph) && Orderly(s.h, Step(net))
    requires Archive(s.sessions, s.owners, s.h.transfers)
    ensures Archive(s.sessions, s.owners, Handle(s.h, net).transfers)
  {
    hide Inv, PtrOk, Handle, Archive;
    if Finishing(s.h) {
      FinishEffect(s.h, net);
      TakeToken(s.h, ph);
      InvActive(s.h, ph);
      FinishArchive(s.sessions, s.owners, s.h.transfers, s.h.port[0].ftx);
    } else {
      HandleLasting(s.h, ph, net);
      LastingArchive(s.sessions, s.owners, s.h.transfers, Handle(s.h, net).transfers);
    }
  }

  lemma PickLoss(s: Lossy, net: Net)
    requires PtrOk(s.h) && s.h.port != [] && Starts(s.h).Some? && Inv(Handle(s.h, net), WrqOut)
    requires Archive(s.sessions, s.owners, s.h.transfers)
    ensures ActiveLoss(s.(h := Handle(s.h, net)), WrqOut)
  {
    hide PtrOk, Inv, HasInternal, Archive, Handle;
    InvActive(Handle(s.h, net), WrqOut);
    PickGoing(s.h, net);
    PickWaits(s.h);
    NotOwner(s.sessions, s.owners, s.h.transfers, Starts(s.h).value);
  }

  lemma PickWaits(h: H)
    requires PtrOk(h) && h.port != [] && Starts(h).Some?
    ensures Starts(h).value < |h.transfers| && Waiting(h.transfers[Starts(h).value])
  {
    hide PtrOk;
  }

  lemma ActiveHeadLoss(s: Lossy, ph: Phase, net: Net)
    requires PtrOk(s.h) && s.h.port != [] && Inv(s.h, ph) && ActiveLoss(s, ph) && KindOf(s.h.port[0]) == Active
    requires Inv(Handle(s.h, net), NextPhase(s.h, ph, net)) && NextPhase(s.h, ph, net) != Rest
    ensures ActiveLoss(s.(h := Handle(s.h, net)), NextPhase(s.h, ph, net))
  {
    hide Inv, PtrOk, Handle, Mine;
    ActivePass(s.h, ph, net);
    InvSerial(s.h, ph);
  }

  lemma ReplyLoss(s: Lossy, ph: Phase, net: Net)
    requires PtrOk(s.h) && s.h.port != [] && Inv(s.h, ph) && ActiveLoss(s, ph) && s.h.port[0] == SerialReply
    requires Inv(Handle(s.h, net), NextPhase(s.h, ph, net)) && NextPhase(s.h, ph, net) != Rest
    ensures ActiveLoss(s.(h := Handle(s.h, net)), NextPhase(s.h, ph, net))
  {
    hide Inv, Up, PtrOk, Handle, GetOpcode, Overlay, AfterReply;
    var h := s.h;
    TakeSerial(h, ph);
    ReplyOp(h, ph);
    if h.ioType == WriteReturn {
      WritePass(h, ph, net);
    } else {
      ReadPass(h, ph, net);
      InvActive(Handle(h, net), NextPhase(h, ph, net));
      InvSerial(Handle(h, net), NextPhase(h, ph, net));
    }
  }

  lemma PassLoss(s: Lossy, ph: Phase, net: Net)
    requires PtrOk(s.h) && s.h.port != [] && Inv(s.h, ph) && ActiveLoss(s, ph) && Orderly(s.h, Step(net))
    requires Archive(s.sessions, s.owners, s.h.transfers) && s.h.running && Handle(s.h, net).running
    requires Inv(Handle(s.h, net), NextPhase(s.h, ph, net))
    ensures ActiveLoss(s.(h := Handle(s.h, net)), NextPhase(s.h, ph, net))
  {
    hide Inv, PtrOk, Handle, Archive, Mine;
    var h, next := s.h, NextPhase(s.h, ph, net);
    if next != Rest {
      if Starts(h).Some? {
        StartsRest(h, ph, net);
        PickLoss(s, net);
      } else if KindOf(h.port[0]) == Active {
        ActiveHeadLoss(s, ph, net);
      } else if h.port[0] == SerialReply {
        ReplyLoss(s, ph, net);
      } else if h.port[0] != TimerReply {
        NotDie(h, net);
        QuietPhase(h, ph, net);
        OtherActive(h, ph, net);
      }
    }
  }

  lemma StepLoss(s: Lossy, ph: Phase, net: Net)
    requires LossInv(s, ph) && CanChange(s, Change(Step(net), false))
    ensures LossInv(s.(h := Handle(s.h, net)), NextPhase(s.h, ph, net))
  {
    hide Inv, PtrOk, Archive, ActiveLoss, Handle, Orderly, NextPhase;
    HandleInv(s.h, ph, net);
    PassArchive(s, ph, net);
    if Handle(s.h, net).running {
      PassLoss(s, ph, net);
    }
  }

  // ---------------------------------------------------------------------------------------
  // Frames
  // ---------------------------------------------------------------------------------------

  /** The server takes the payload for the next one exactly if it is. */
  lemma OfferStored(ses: Session, t: Ftx)
    requires XferOk(t, DataOut) && SessionOk(ses) && ses.got <= Payloads(t.writes) && |ses.got| <= |t.acked|
    ensures var s1 := Store(ses, Wire(|t.acked| + 1), ChunkOf(t));
            && SessionOk(s1) && s1.name == ses.name && s1.got <= Payloads(t.writes) && |s1.got| <= |t.acked| + 1
  {
    hide Payloads, ChunkOf, XferOk, SessionOk, OnLine;
    NextPayload(t);
    AckedFew(t);
    StoreOk(ses, Wire(|t.acked| + 1), ChunkOf(t));
    var p := Payloads(t.writes);
    if Accepts(ses, Wire(|t.acked| + 1), ChunkOf(t)) {
      SameWire(|ses.got|, |t.acked|);
      assert (t.acked + [ChunkOf(t)])[..|t.acked|] == t.acked;
      assert ses.got == p[..|t.acked|] == t.acked;
    }
  }

  lemma AckedFew(t: Ftx)
    requires XferOk(t, DataOut)
    ensures |t.acked| <= MAX_BLOCKS
  {
    hide Payloads, Unacked, Conserved;
    XferConserved(t, DataOut);
  }

  /** Up to block 65536 the number on the wire tells how many blocks came before. */
  lemma SameWire(m: nat, n: nat)
    requires m <= n <= MAX_BLOCKS && Wire(n + 1) == Wire(m + 1)
    ensures m == n
  {
  }

  lemma DataLoss(s: Lossy, ph: Phase)
    requires ActiveLoss(s, ph) && ph == DataOut && StageOf(s.h.serial) == Going && !s.missed
    requires Archive(s.sessions, s.owners, s.h.transfers)
    requires s.h.ioArg.Some? && s.h.ioArg.value < |s.h.transfers| && XferOk(s.h.transfers[s.h.ioArg.value], ph)
    ensures var i, t := s.h.ioArg.value, s.h.transfers[s.h.ioArg.value];
            var sessions := Serve(s.sessions, Data(Wire(|t.acked| + 1), ChunkOf(t)));
            && Archive(sessions, s.owners, s.h.transfers) && Mine(sessions, s.owners, i, |t.acked| + 1)
  {
    hide Payloads, ChunkOf, XferOk, SessionOk, Store, Wire;
    var i, t := s.h.ioArg.value, s.h.transfers[s.h.ioArg.value];
    var last := |s.sessions| - 1;
    var ses := s.sessions[last];
    assert OwnerOk(ses, s.owners[last], s.h.transfers);
    OfferStored(ses, t);
    UpdateArchive(s.sessions, s.owners, s.h.transfers, Store(ses, Wire(|t.acked| + 1), ChunkOf(t)));
  }

  lemma RequestLoss(s: Lossy, i: nat)
    requires Archive(s.sessions, s.owners, s.h.transfers) && i !in s.owners
    requires i < |s.h.transfers| && Sent(s.h.transfers[i])
    ensures var sessions := Serve(s.sessions, Wrq(s.h.transfers[i].name));
            && Archive(sessions, s.owners + [i], s.h.transfers)
            && Mine(sessions, s.owners + [i], i, |s.h.transfers[i].acked|)
  {
    hide OwnerOk;
    NewSession(s.sessions, s.owners, s.h.transfers, i, s.h.transfers[i].name);
  }

  lemma ArrivalLoss(s: Lossy, ph: Phase, status: nat)
    requires LossInv(s, ph) && CanChange(s, Change(WriteDone(status), false))
    requires !Strays(s, Change(WriteDone(status), false))
    ensures var r := Changed(s, Change(WriteDone(status), false));
            Archive(r.sessions, r.owners, r.h.transfers) && ActiveLoss(r, ph)
  {
    hide Inv, PtrOk, Archive, Mine, XferOk, Deliver, FrameOf, TftpBytes, Serve, Orderly, OnLine;
    var h := s.h;
    GoingPacket(h, ph);
    ArrivesIntact(h, ph);
    var i := h.ioArg.value;
    if ph == WrqOut {
      OnLineKind(h.transfers[i], ph);
      XferSent(h.transfers[i], ph);
      RequestLoss(s, i);
      NoneYet(h.transfers[i]);
    } else {
      NextPayload(h.transfers[i]);
      DataLoss(s, ph);
    }
  }

  lemma NoneYet(t: Ftx)
    ensures Offered(t, WrqOut, Answered) == |t.acked|
  {
  }

  lemma LostLoss(s: Lossy, ph: Phase, status: nat)
    requires LossInv(s, ph) && CanChange(s, Change(WriteDone(status), true))
    ensures ActiveLoss(Changed(s, Change(WriteDone(status), true)), ph)
  {
    hide Inv, PtrOk, Archive, XferOk, Orderly, OnLine;
    GoingPacket(s.h, ph);
    if ph == WrqOut {
      OnLineKind(s.h.transfers[s.h.ioArg.value], ph);
    } else {
      NextPayload(s.h.transfers[s.h.ioArg.value]);
    }
  }

  lemma OtherLoss(s: Lossy, ph: Phase, mv: Move)
    requires LossInv(s, ph) && CanChange(s, Change(mv, false)) && !mv.Step? && !mv.WriteDone?
    ensures ActiveLoss(s.(h := Apply(s.h, mv)), ph)
  {
    hide Inv, PtrOk, Archive, Orderly, Mine;
    if mv.ReadDone? {
      ReadInvSerial(s.h, ph);
    }
  }

  lemma ChangeInv(s: Lossy, ph: Phase, c: Change)
    requires LossInv(s, ph) && CanChange(s, c) && !Strays(s, c)
    ensures LossInv(Changed(s, c), PhaseAfter(s.h, ph, c.move))
  {
    hide Inv, PtrOk, Archive, ActiveLoss, Handle, Orderly, NextPhase, Arrived, Serve;
    ApplyInv(s.h, ph, c.move);
    match c.move
    case Step(net) => StepLoss(s, ph, net);
    case WriteDone(status) =>
      if c.lost {
        LostLoss(s, ph, status);
      } else {
        ArrivalLoss(s, ph, status);
      }
    case _ => OtherLoss(s, ph, c.move);
  }

  // ---------------------------------------------------------------------------------------
  // Runs
  // ---------------------------------------------------------------------------------------

  predicate Beginning(s: Lossy) {
    Initial(s.h) && s.sessions == [] && s.owners == [] && !s.missed
  }

  lemma BeginningInv(s: Lossy)
    requires Beginning(s)
    ensures LossInv(s, Rest)
  {
    InitInv(s.h);
    InvFine(s.h, Rest);
  }

  ghost predicate LossyRun(s: Lossy, changes: seq<Change>)
    decreases |changes|
  {
    changes == [] || (CanChange(s, changes[0]) && LossyRun(Changed(s, changes[0]), changes[1..]))
  }

  ghost function Afterwards(s: Lossy, changes: seq<Change>): Lossy
    requires LossyRun(s, changes)
    decreases |changes|
  {
    if changes == [] then s else Afterwards(Changed(s, changes[0]), changes[1..])
  }

  /** No DATA packet of the run strays. */
  ghost predicate NoneStrays(s: Lossy, changes: seq<Change>)
    requires LossyRun(s, changes)
    decreases |changes|
  {
    changes == [] || (!Strays(s, changes[0]) && NoneStrays(Changed(s, changes[0]), changes[1..]))
  }

  lemma {:induction false} LossRun(s: Lossy, ph: Phase, changes: seq<Change>) returns (last: Phase)
    requires LossInv(s, ph) && LossyRun(s, changes) && NoneStrays(s, changes)
    ensures LossInv(Afterwards(s, changes), last)
    decreases |changes|
  {
    hide LossInv, CanChange, Changed, Strays, PhaseAfter;
    last := ph;
    if changes != [] {
      PtrThere(s, changes[0]);
      ChangeInv(s, ph, changes[0]);
      last := LossRun(Changed(s, changes[0]), PhaseAfter(s.h, ph, changes[0].move), changes[1..]);
    }
  }

  lemma PtrThere(s: Lossy, c: Change)
    requires CanChange(s, c)
    ensures PtrOk(s.h) && Possible(s.h, c.move)
  {
  }

  ghost function MovesOf(changes: seq<Change>): seq<Move> {
    seq(|changes|, k requires 0 <= k < |changes| => changes[k].move)
  }

  lemma NextMoves(changes: seq<Change>)
    requires changes != []
    ensures MovesOf(changes) != [] && MovesOf(changes)[0] == changes[0].move
    ensures MovesOf(changes)[1..] == MovesOf(changes[1..])
  {
  }

  lemma ChangedHandler(s: Lossy, c: Change)
    requires CanChange(s, c)
    ensures PtrOk(s.h) && Possible(s.h, c.move) && Orderly(s.h, c.move) && Changed(s, c).h == Apply(s.h, c.move)
  {
    hide PtrOk, Apply, Arrived, Serve, Orderly;
  }

  lemma {:induction false} MovesPossible(s: Lossy, changes: seq<Change>)
    requires LossyRun(s, changes)
    ensures PtrOk(s.h) ==>
              PossibleRun(s.h, MovesOf(changes)) && After(s.h, MovesOf(changes)) == Afterwards(s, changes).h
    decreases |changes|
  {
    hide PtrOk, Apply, CanChange, Changed, Possible, MovesOf;
    if changes != [] {
      ChangedHandler(s, changes[0]);
      NextMoves(changes);
      MovesPossible(Changed(s, changes[0]), changes[1..]);
    } else {
      assert MovesOf(changes) == [] by {
        NoMoves();
      }
    }
  }

  lemma NoMoves()
    ensures MovesOf([]) == []
  {
  }

  /** What the handler has handled. */
  ghost function Dealings(s: Lossy, changes: seq<Change>): seq<Dealt>
    requires Beginning(s) && LossyRun(s, changes)
  {
    MovesPossible(s, changes);
    Log(s.h, MovesOf(changes))
  }

  lemma DealingsAre(s: Lossy, changes: seq<Change>)
    requires Beginning(s) && LossyRun(s, changes)
    ensures var ts, log := Afterwards(s, changes).h.transfers, Dealings(s, changes);
            && |ts| == |PathsIn(log)|
            && forall i :: 0 <= i < |ts| ==>
                 ts[i].name == NameOf(PathsIn(log)[i]) && ts[i].writes == BytesFor(log, i)
  {
    hide Afterwards, After, Log, MovesOf, BytesFor, PathsIn, NameOf;
    MovesPossible(s, changes);
    HandedIn(s.h, MovesOf(changes));
  }

  /** Whatever frames are lost and whatever the reads bring, each session on the server is for the name its
      file was opened by and holds a prefix of the bytes clients have written to it, unless a DATA packet has
      arrived whose write request was lost. */
  lemma PrefixDespiteLosses(s: Lossy, changes: seq<Change>, k: nat)
    requires Beginning(s) && LossyRun(s, changes) && NoneStrays(s, changes)
    requires k < |Afterwards(s, changes).sessions|
    ensures var r := Afterwards(s, changes);
            && |r.owners| == |r.sessions| && r.owners[k] < |PathsIn(Dealings(s, changes))| == |r.h.transfers|
            && r.sessions[k].name == NameOf(PathsIn(Dealings(s, changes))[r.owners[k]])
            && Flatten(r.sessions[k].got) <= Flatten(BytesFor(Dealings(s, changes), r.owners[k]))
  {
    hide Afterwards, Inv, ActiveLoss, Payloads, SessionOk, Flatten, Dealings, PathsIn, BytesFor, NameOf;
    DealingsAre(s, changes);
    BeginningInv(s);
    var last := LossRun(s, Rest, changes);
    var r := Afterwards(s, changes);
    assert OwnerOk(r.sessions[k], r.owners[k], r.h.transfers);
    var t := r.h.transfers[r.owners[k]];
    FlattenPrefix(r.sessions[k].got, Payloads(t.writes));
    FlattenPayloads(t.writes);
  }

  /** Up to the first DATA packet that strays, one strays exactly if the server has no session for its
      file. */
  lemma StraysExact(s: Lossy, changes: seq<Change>, c: Change)
    requires Beginning(s) && LossyRun(s, changes) && NoneStrays(s, changes)
    requires CanChange(Afterwards(s, changes), c) && DataArrives(Afterwards(s, changes), c)
    ensures var r := Afterwards(s, changes);
            r.h.ioArg.Some? && (Strays(r, c) <==> r.h.ioArg.value !in r.owners)
  {
    hide Afterwards, Inv, Archive, CanChange;
    BeginningInv(s);
    var last := LossRun(s, Rest, changes);
    var r := Afterwards(s, changes);
    StillRuns(r, c);
    GoingData(r.h, last);
  }

  lemma StillRuns(s: Lossy, c: Change)
    requires CanChange(s, c)
    ensures s.h.running
  {
  }

  lemma GoingData(h: H, ph: Phase)
    requires Inv(h, ph) && h.serial.Pending? && h.serial.op.OpWrite? && h.serial.op.data.Data?
    ensures ph == DataOut
  {
    hide XferOk, Inv, OnLine;
    GoingPacket(h, ph);
    OnLineKind(h.transfers[h.ioArg.value], ph);
  }

  // ---------------------------------------------------------------------------------------
  // Runs without losses
  // ---------------------------------------------------------------------------------------

  /** The handler and the server of a system whose line loses nothing. */
  function Bare(s: Sys): Lossy {
    Lossy(s.h, s.sessions, s.owners, false)
  }

  function Lossless(s: Sys, ev: Event): Change
    requires Allowed(s, ev)
  {
    Change(MoveOf(s, ev), false)
  }

  lemma BareStep(s: Sys, ev: Event)
    requires Allowed(s, ev)
    ensures CanChange(Bare(s), Lossless(s, ev)) && !Strays(Bare(s), Lossless(s, ev))
    ensures Changed(Bare(s), Lossless(s, ev)) == Bare(Next1(s, ev))
  {
    hide PtrOk, Apply, Arrived, Serve, Reply, Extract, Image, ImageSize, Orderly, FitsTold;
  }

  /** The runs of the system are those in which nothing is lost. */
  lemma {:induction false} NothingLost(s: Sys, events: seq<Event>) returns (changes: seq<Change>)
    requires AllowedRun(s, events)
    ensures LossyRun(Bare(s), changes) && NoneStrays(Bare(s), changes)
    ensures Afterwards(Bare(s), changes) == Bare(AfterRun(s, events))
    decreases |events|
  {
    hide Allowed, Next1, CanChange, Changed, Strays, Bare, Lossless;
    changes := [];
    if events != [] {
      BareStep(s, events[0]);
      var rest := NothingLost(Next1(s, events[0]), events[1..]);
      changes := [Lossless(s, events[0])] + rest;
      assert changes[1..] == rest;
    }
  }
}

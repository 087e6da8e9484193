/** From the messages of the clients alone to what the server holds. */
module EndToEnd {
  import opened Bytes
  import opened Messages
  import opened Packets
  import opened Engine
  import opened Files
  import opened Ownership
  import opened Intake
  import opened Delivery
  import opened Shape
  import opened CleanEnd
  import opened Progress
  import opened Reuse

  // ---------------------------------------------------------------------------------------
  // Every message of a client is handled, in order, or still queued
  // ---------------------------------------------------------------------------------------

  function Submitted(moves: seq<Move>): seq<Msg<nat>> {
    if moves == [] then []
    else (if moves[0].ClientSends? then [moves[0].msg] else []) + Submitted(moves[1..])
  }

  function MessagesOf(log: seq<Dealt>): seq<Msg<nat>> {
    seq(|log|, k requires 0 <= k < |log| => log[k].msg)
  }

  lemma HeadOf(q: seq<Msg<nat>>)
    requires q != []
    ensures Of(q, Client) == Of([q[0]], Client) + Of(q[1..], Client)
  {
    OfConcat([q[0]], q[1..], Client);
    assert [q[0]] + q[1..] == q;
  }

  lemma PassOrder(h: H, net: Net)
    requires PtrOk(h) && h.port != []
    ensures Of(Handle(h, net).port, Client) == Of(h.port[1..], Client)
  {
    hide PtrOk, Handle, Count, KindOf;
    if Internal(h.port[0]) {
      InsideSends(h, net);
    } else {
      OutsideSends(h, net);
    }
  }

  /** One move: what is queued of clients' messages and what they add is what is handled and what stays. */
  lemma MoveOrder(h: H, mv: Move)
    requires PtrOk(h) && Possible(h, mv)
    ensures Of(h.port, Client) + (if mv.ClientSends? then [mv.msg] else [])
         == Of(MessagesOf(DealtIn(h, mv)), Client) + Of(Apply(h, mv).port, Client)
  {
    hide PtrOk, Handle;
    match mv
    case Step(net) =>
      HeadOf(h.port);
      PassOrder(h, net);
      assert MessagesOf(DealtIn(h, mv)) == [h.port[0]];
    case ClientSends(m) => OfAppend(h.port, m);
    case WriteDone(_) => OfAppend(h.port, SerialReply);
    case ReadDone(_, _) => OfAppend(h.port, SerialReply);
    case TimerFires => OfAppend(h.port, TimerReply);
  }

  lemma MessagesJoin(a: seq<Dealt>, b: seq<Dealt>)
    ensures Of(MessagesOf(a + b), Client) == Of(MessagesOf(a), Client) + Of(MessagesOf(b), Client)
  {
    assert MessagesOf(a + b) == MessagesOf(a) + MessagesOf(b);
    OfConcat(MessagesOf(a), MessagesOf(b), Client);
  }

  /** In any run at all, the messages clients send are handled in the order they were sent in; what has not
      been handled is still queued. */
  lemma {:induction false} ClientOrder(h: H, moves: seq<Move>)
    requires PtrOk(h) && PossibleRun(h, moves)
    ensures Of(h.port, Client) + Submitted(moves)
         == Of(MessagesOf(Log(h, moves)), Client) + Of(After(h, moves).port, Client)
    decreases |moves|
  {
    hide PtrOk, Apply, Possible, DealtIn, Of, MessagesOf;
    if moves == [] {
      Nothing();
    } else {
      var next := Apply(h, moves[0]);
      MoveOrder(h, moves[0]);
      ClientOrder(next, moves[1..]);
      MessagesJoin(DealtIn(h, moves[0]), Log(next, moves[1..]));
      Regroup(Of(h.port, Client), if moves[0].ClientSends? then [moves[0].msg] else [], Submitted(moves[1..]),
              Of(MessagesOf(DealtIn(h, moves[0])), Client), Of(next.port, Client));
    }
  }

  lemma Nothing()
    ensures MessagesOf([]) == [] && Of(MessagesOf([]), Client) == []
  {
  }

  lemma Regroup<T>(a: seq<T>, b: seq<T>, c: seq<T>, d: seq<T>, e: seq<T>)
    requires a + b == d + e
    ensures a + (b + c) == d + (e + c)
  {
    assert a + (b + c) == (a + b) + c;
    assert d + (e + c) == (d + e) + c;
  }

  // ---------------------------------------------------------------------------------------
  // What clients have asked for
  // ---------------------------------------------------------------------------------------

  /** The paths a list of messages opens files by. */
  function OpenedPaths(asked: seq<Msg<nat>>): seq<CString> {
    if asked == [] then []
    else (if asked[0].FindOutput? then [asked[0].path] else []) + OpenedPaths(asked[1..])
  }

  /** The buffers it writes to file i. */
  function WrittenTo(asked: seq<Msg<nat>>, i: nat): seq<seq<byte>> {
    if asked == [] then []
    else (if asked[0].Write? && asked[0].ftx == i then [asked[0].bytes] else []) + WrittenTo(asked[1..], i)
  }

  /** If there was memory for all of it, what was handed in is what clients have asked for. */
  lemma {:induction false} AllHandedIn(log: seq<Dealt>)
    requires forall k :: 0 <= k < |log| ==> log[k].mem
    ensures PathsIn(log) == OpenedPaths(Of(MessagesOf(log), Client))
    ensures forall i :: BytesFor(log, i) == WrittenTo(Of(MessagesOf(log), Client), i)
  {
    if log != [] {
      AllHandedIn(log[1..]);
      assert MessagesOf(log)[1..] == MessagesOf(log[1..]);
    }
  }

  /** The messages clients send in a run of the system. */
  function Requests(events: seq<Event>): seq<Msg<nat>> {
    if events == [] then []
    else (if events[0].ClientMsg? then [events[0].msg] else []) + Requests(events[1..])
  }

  lemma {:induction false} NoneAsked(events: seq<Event>, more: seq<Event>)
    requires forall k :: 0 <= k < |more| ==> !FromClient(more[k])
    ensures Requests(events + more) == Requests(events)
    decreases |events| + |more|
  {
    if events != [] {
      assert (events + more)[1..] == events[1..] + more;
      NoneAsked(events[1..], more);
    } else {
      assert events + more == more;
      if more != [] {
        assert [] + more[1..] == more[1..];
        assert !FromClient(more[0]);
        NoneAsked([], more[1..]);
      }
    }
  }

  lemma ClientMove(s: Sys, ev: Event)
    requires Allowed(s, ev)
    ensures MoveAt(s, ev).ClientSends? <==> ev.ClientMsg?
    ensures ev.ClientMsg? ==> MoveAt(s, ev) == ClientSends(ev.msg)
    ensures MoveAt(s, ev).Step? <==> ev.Pass?
    ensures ev.Pass? ==> MoveAt(s, ev) == Step(ev.net)
  {
    hide PtrOk, Extract, Image, ImageSize, Orderly, FitsTold;
  }

  lemma {:induction false} SubmittedAre(s: Sys, events: seq<Event>)
    requires AllowedRun(s, events)
    ensures Submitted(Moves(s, events)) == Requests(events)
    decreases |events|
  {
    hide Allowed, Next1, MoveAt;
    if events != [] {
      ClientMove(s, events[0]);
      SubmittedAre(Next1(s, events[0]), events[1..]);
      assert Moves(s, events)[1..] == Moves(Next1(s, events[0]), events[1..]);
    }
  }

  lemma DealtMem(h: H, mv: Move)
    requires Possible(h, mv) && (mv.Step? ==> mv.net.mem)
    ensures forall k :: 0 <= k < |DealtIn(h, mv)| ==> DealtIn(h, mv)[k].mem
  {
  }

  /** Without faults there is memory for everything. */
  lemma {:induction false} MemoryThere(s: Sys, events: seq<Event>)
    requires AllowedRun(s, events) && FaultFreeRun(s, events) && PtrOk(s.h)
    requires PossibleRun(s.h, Moves(s, events))
    ensures forall k :: 0 <= k < |Log(s.h, Moves(s, events))| ==> Log(s.h, Moves(s, events))[k].mem
    decreases |events|
  {
    hide Allowed, Next1, MoveAt, PtrOk, Possible, Apply, DealtIn;
    if events != [] {
      var ev, next := events[0], Next1(s, events[0]);
      NextHandler(s, ev);
      ClientMove(s, ev);
      assert Moves(s, events)[0] == MoveAt(s, ev) && Moves(s, events)[1..] == Moves(next, events[1..]);
      MemoryThere(next, events[1..]);
      DealtMem(s.h, MoveAt(s, ev));
    }
  }

  /** Where a run without faults has come to rest, the clients have been given all they asked for. */
  lemma AllGiven(s: Sys, events: seq<Event>)
    requires InitialSys(s) && AllowedRun(s, events) && FaultFreeRun(s, events) && AfterRun(s, events).h.port == []
    ensures PathsIn(Told(s, events)) == OpenedPaths(Requests(events))
    ensures forall i :: Given(s, events, i) == WrittenTo(Requests(events), i)
  {
    hide AllowedRun, FaultFreeRun, AfterRun, PossibleRun, After, Log, Moves, PathsIn, BytesFor, OpenedPaths, WrittenTo;
    StartPoints(s);
    MovesRun(s, events);
    MemoryThere(s, events);
    ClientOrder(s.h, Moves(s, events));
    SubmittedAre(s, events);
    var log := Told(s, events);
    AllHandedIn(log);
    assert Of(MessagesOf(log), Client) == Requests(events) by {
      assert Of(s.h.port, Client) == [] && Of(AfterRun(s, events).h.port, Client) == [];
      assert [] + Submitted(Moves(s, events)) == Submitted(Moves(s, events));
      assert Of(MessagesOf(log), Client) + [] == Of(MessagesOf(log), Client);
    }
  }

  // ---------------------------------------------------------------------------------------
  // Closed files
  // ---------------------------------------------------------------------------------------

  lemma EndQueued(s: Sys, ph: Phase, i: nat)
    requires Steady(s, ph) && FaultFree(s, ClientMsg(End(i)))
    ensures Closed(Next1(s, ClientMsg(End(i))).h, i)
  {
    hide Steady, PtrOk, Orderly;
  }

  /** A file whose END clients have sent is closed. */
  lemma {:induction false} RequestCloses(s: Sys, ph: Phase, events: seq<Event>, i: nat)
    requires Steady(s, ph) && FaultFreeRun(s, events) && AllowedRun(s, events) && End(i) in Requests(events)
    ensures Closed(AfterRun(s, events).h, i)
    decreases |events|
  {
    hide Steady, FaultFree, Allowed, Next1, PhaseNext, Work, Weight, Closed;
    var ev := events[0];
    FaultFreeIsAllowed(s, ev);
    StepFalls(s, ph, ev);
    if ev == ClientMsg(End(i)) {
      EndQueued(s, ph, i);
      ClosedRun(Next1(s, ev), PhaseNext(s, ph, ev), events[1..], i);
    } else {
      RequestCloses(Next1(s, ev), PhaseNext(s, ph, ev), events[1..], i);
    }
  }

  /** The server has seen the end of file i, and has it under this name with these bytes. */
  predicate Complete(s: Sys, i: nat, name: seq<byte>, file: seq<byte>) {
    exists k :: 0 <= k < |s.owners| && k < |s.sessions| && s.owners[k] == i &&
      s.sessions[k].name == name && s.sessions[k].done && Flatten(s.sessions[k].got) == file
  }

  /** A file that ended normally has arrived as a whole, under its name. */
  lemma NormalArrives(s: Sys, events: seq<Event>, i: nat)
    requires InitialSys(s) && FaultFreeRun(s, events) && AllowedRun(s, events) && EndedNormally(AfterRun(s, events), i)
    requires Fitting(Given(s, events, i)) && CleanShape(Given(s, events, i))
    ensures i < |PathsIn(Told(s, events))|
    ensures Complete(AfterRun(s, events), i, NameOf(PathsIn(Told(s, events))[i]), Flatten(Given(s, events, i)))
  {
    hide AllowedRun, FaultFreeRun, AfterRun, Told, Given, PathsIn, NameOf, Flatten, Fitting, CleanShape;
    GivenIs(s, events);
    var r := AfterRun(s, events);
    var k := FinishedIsStored(s, events, i);
    CleanHasNoEarlyEnd(Given(s, events, i));
    PrefixDelivery(s, events, k);
    OnlyDone(s, events, i, k);
  }

  lemma CleanHasNoEarlyEnd(writes: seq<seq<byte>>)
    requires CleanShape(writes)
    ensures NoEarlyEnd(writes)
  {
    hide Payloads, CleanShape;
    ShapeExact(writes);
    forall k | 0 <= k < |Payloads(writes)| - 1
      ensures |Payloads(writes)[k]| == BLOCK_SIZE
    {
      assert Full(Payloads(writes)[k]);
    }
  }

  /** No two sessions are for one file. */
  lemma OnlyDone(s: Sys, events: seq<Event>, i: nat, k: nat)
    requires InitialSys(s) && AllowedRun(s, events) && EndedNormally(AfterRun(s, events), i)
    requires k < |AfterRun(s, events).sessions| && k < |AfterRun(s, events).owners|
    requires AfterRun(s, events).owners[k] == i
    ensures AfterRun(s, events).sessions[k].done
  {
    hide AllowedRun, AfterRun, OwnerOk, AllStored, Inv, ActiveOk;
    InitSysInv(s);
    var last := SysRun(s, Rest, events);
  }

  /** Every run without faults can be completed, without a client and within the bound, so that there are as
      many files as clients have opened, and each of them they have closed, of at most 65535 blocks that fit
      their frames, has arrived at the server, under the name it was opened by and with exactly the bytes
      written to it, if these were written in a clean shape; otherwise it has not ended normally. */
  lemma EveryFileArrives(s: Sys, events: seq<Event>) returns (more: seq<Event>)
    requires InitialSys(s) && FaultFreeRun(s, events) && AllowedRun(s, events)
    ensures FaultFreeRun(s, events + more) && AllowedRun(s, events + more)
    ensures |more| + Inner(events) <= Asked(events) && forall k :: 0 <= k < |more| ==> !FromClient(more[k])
    ensures var r, asked := AfterRun(s, events + more), Requests(events);
            && |r.h.transfers| == |OpenedPaths(asked)|
            && forall i: nat :: End(i) in asked && Fitting(WrittenTo(asked, i)) ==>
                 && i < |OpenedPaths(asked)|
                 && (if CleanShape(WrittenTo(asked, i))
                     then Complete(r, i, NameOf(OpenedPaths(asked)[i]), Flatten(WrittenTo(asked, i)))
                     else !EndedNormally(r, i))
  {
    hide FaultFreeRun, AllowedRun, AfterRun, InitialSys, Given, Told, PathsIn, OpenedPaths, WrittenTo, NameOf, Flatten;
    hide Steady, Work, Fitting, CleanShape, EndedNormally, Complete, Requests, Closed;
    more := EveryRunEnds(s, events);
    NoneAsked(events, more);
    AllGiven(s, events + more);
    GivenIs(s, events + more);
    StartsSteady(s);
    forall i: nat | End(i) in Requests(events) && Fitting(WrittenTo(Requests(events), i))
      ensures var r, asked := AfterRun(s, events + more), Requests(events);
              && i < |OpenedPaths(asked)|
              && (if CleanShape(WrittenTo(asked, i))
                  then Complete(r, i, NameOf(OpenedPaths(asked)[i]), Flatten(WrittenTo(asked, i)))
                  else !EndedNormally(r, i))
    {
      RequestCloses(s, Rest, events, i);
      if CleanShape(WrittenTo(Requests(events), i)) {
        NormalArrives(s, events + more, i);
      }
    }
  }
}

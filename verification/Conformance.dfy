/** The code of handler.c, dos.c and netio.c meets the assumptions the abstract runs are made of. */
module Conformance {
  import opened Engine
  import opened Files
  import opened Ownership
  import opened Delivery
  import opened Handler

  /** In every state an orderly run reaches, the next message meets the demands of HandleMessage: no
      pointer that leads nowhere is followed, no status is fetched too early, and no byte outside a
      buffer is sent. And the frames its packets get are those the server receives. */
  lemma MeetsDemands(h: H, moves: seq<Move>, allocations: seq<bool>)
    requires Initial(h) && PossibleRun(h, moves) && Throughout(h, moves, Orderly)
    requires var r := After(h, moves);
             r.running && r.port != [] && Orderly(r, Step(NetFor(r, allocations)))
    ensures var r := After(h, moves);
            && !r.trapped && !Handle(r, NetFor(r, allocations)).trapped && FitsTold(r, NetFor(r, allocations))
  {
    hide After, Inv, Handle, NetFor, Orderly, FitsTold, NextPhase;
    InitInv(h);
    InvFine(h, Rest);
    var last := RunInv(h, Rest, moves);
    var r := After(h, moves);
    ApplyInv(r, last, Step(NetFor(r, allocations)));
    FitsAsTold(r, allocations);
  }

  /** What the main loop does is a run, and it only stops when it is told to or nothing is queued. */
  lemma {:induction false} LoopIsRun(h: H, allocations: seq<seq<bool>>) returns (moves: seq<Move>)
    requires PtrOk(h)
    ensures PossibleRun(h, moves) && After(h, moves) == Looped(h, allocations)
    ensures |moves| <= |allocations| && forall k :: 0 <= k < |moves| ==> moves[k].Step?
    ensures |moves| == |allocations| || !After(h, moves).running || After(h, moves).port == []
    decreases |allocations|
  {
    hide PtrOk, Handle, NetFor;
    moves := [];
    if allocations != [] && h.running && h.port != [] {
      var net := NetFor(h, allocations[0]);
      var rest := LoopIsRun(Handle(h, net), allocations[1..]);
      moves := [Step(net)] + rest;
      assert moves[1..] == rest;
    }
  }

  lemma FitsAsTold(h: H, allocations: seq<bool>)
    requires PtrOk(h) && h.port != []
    ensures FitsTold(h, NetFor(h, allocations))
  {
    hide PtrOk, Outgoing;
  }
}

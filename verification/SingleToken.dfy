/** The one internal packet in whole sequential runs. */
module SingleToken {
  import opened Messages
  import opened Engine
  import opened Files
  import opened Ownership
  import opened Sequential

  lemma {:induction false} RunSeq(h: H, ph: Phase, moves: seq<Move>) returns (last: Phase)
    requires PtrOk(h) && PossibleRun(h, moves) && Throughout(h, moves, Disciplined)
    requires Fine(h, ph) && (h.running ==> SeqInv(h, ph))
    ensures Fine(After(h, moves), last) && (After(h, moves).running ==> SeqInv(After(h, moves), last))
    decreases |moves|
  {
    hide Inv, SeqInv, PtrOk, Apply, NextPhase;
    last := ph;
    if moves != [] {
      var mv := moves[0];
      ApplyInv(h, ph, mv);
      MoveSeqAny(h, ph, mv);
      last := RunSeq(Apply(h, mv), PhaseAfter(h, ph, mv), moves[1..]);
    }
  }

  lemma MoveSeqAny(h: H, ph: Phase, mv: Move)
    requires PtrOk(h) && Possible(h, mv) && Inv(h, ph) && SeqInv(h, ph) && Disciplined(h, mv)
    ensures Apply(h, mv).running ==> SeqInv(Apply(h, mv), PhaseAfter(h, ph, mv))
  {
    hide Inv, SeqInv, PtrOk, Handle, NextPhase;
    if mv.Step? {
      StepSeq(h, ph, mv.net);
    } else {
      MoveSeq(h, ph, mv);
    }
  }

  /** In every reachable state of a sequential run, a busy handler has exactly one token: a queued
      internal message, or a serial request that is outstanding or whose reply is not handled yet. So
      the one internal packet is never sent while it is still queued. */
  lemma {:induction false} SingleToken(h: H, moves: seq<Move>)
    requires Initial(h) && PossibleRun(h, moves) && Throughout(h, moves, Disciplined) && After(h, moves).running
    ensures After(h, moves).busy ==> Tokens(After(h, moves)) == 1
    ensures |Of(After(h, moves).port, Active)| + |Of(After(h, moves).port, Wake)| <= 1
    ensures !After(h, moves).reused
  {
    hide After, Inv;
    InitInv(h);
    InvFine(h, Rest);
    var last := RunSeq(h, Rest, moves);
    InvBusy(After(h, moves), last);
  }
}

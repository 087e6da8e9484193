/** For exactly which files the handler can get out of step with the server. */
module Truncation {
  import opened Bytes
  import opened Engine
  import opened Files
  import opened Ownership
  import opened Intake
  import opened Delivery
  import opened CleanEnd
  import opened Termination
  import opened Stale

  // ---------------------------------------------------------------------------------------
  // Files that are finished but not stored as a whole
  // ---------------------------------------------------------------------------------------

  /** File i, of these buffers, is reported as finished. */
  ghost predicate Done(s: Sys, events: seq<Event>, i: nat, w: seq<seq<byte>>)
    requires InitialSys(s) && AllowedRun(s, events)
  {
    var ts := AfterRun(s, events).h.transfers;
    i < |ts| && ts[i].state == Finished && Given(s, events, i) == w
  }

  predicate HeldWhole(s: Sys, i: nat, w: seq<seq<byte>>) {
    exists k :: 0 <= k < |s.owners| && k < |s.sessions| && s.owners[k] == i && s.sessions[k].got == Payloads(w)
  }

  /** Whenever the handler reports a file of these buffers as finished, the server has all of it. */
  ghost predicate FinishedIsWhole(w: seq<seq<byte>>) {
    forall s: Sys, events: seq<Event>, i: nat | InitialSys(s) && AllowedRun(s, events) ::
      Done(s, events, i, w) ==> HeldWhole(AfterRun(s, events), i, w)
  }

  /** No two sessions are for the same file. */
  lemma OnlyHolder(s: Sys, i: nat, k: nat, w: seq<seq<byte>>)
    requires Books(s) && k < |s.sessions| && k < |s.owners| && s.owners[k] == i && s.sessions[k].got != Payloads(w)
    ensures !HeldWhole(s, i, w)
  {
    hide Payloads, AllStored, OwnerOk;
  }

  /** A run in which the file w is finished, acknowledged by stale replies only. */
  lemma FinishesStale(w: seq<seq<byte>>) returns (events: seq<Event>)
    requires Fitting(w) && Payloads(w) != []
    ensures AllowedRun(Start(), events) && Done(Start(), events, Before(w), w)
  {
    hide AllowedRun, AfterRun, Pause, Waits, Payloads, Given, Told, PathsIn, NameOf;
    var a := Prepares(w);
    var b := AllTimeOut(w, a, 0);
    var c := LastSends(w, b);
    var d := LastEnds(w, c);
    LeadsTwice(Start(), a, b);
    LeadsTwice(Start(), b, c);
    LeadsTwice(Start(), c, d);
    events :| AllowedRun(Start(), events) && AfterRun(Start(), events) == d;
    GivenIs(Start(), events);
  }

  lemma SysRunFrom(s: Sys, events: seq<Event>) returns (last: Phase)
    requires InitialSys(s) && AllowedRun(s, events)
    ensures SysInv(AfterRun(s, events), last)
  {
    InitSysInv(s);
    last := SysRun(s, Rest, events);
  }

  lemma CutShort(w: seq<seq<byte>>)
    requires Fitting(w) && !NoEarlyEnd(w)
    ensures !FinishedIsWhole(w)
  {
    hide Payloads, HeldWhole;
    var events := FinishesStale(w);
    var r := AfterRun(Start(), events);
    hide AllowedRun, AfterRun, NoEarlyEnd;
    var k := FinishedIsStored(Start(), events, Before(w));
    var last := SysRunFrom(Start(), events);
    OnlyHolder(r, Before(w), k, w);
  }

  /** Among the files of at most 65535 blocks that fit their frames, those of which the server always has
      all when they are finished are exactly those no payload of which but the last is short. */
  lemma WholeExact(w: seq<seq<byte>>)
    requires Fitting(w)
    ensures FinishedIsWhole(w) <==> NoEarlyEnd(w)
  {
    hide AllowedRun, AfterRun, NoEarlyEnd, Payloads;
    if NoEarlyEnd(w) {
      forall s: Sys, events: seq<Event>, i: nat
        | InitialSys(s) && AllowedRun(s, events) && Done(s, events, i, w)
        ensures HeldWhole(AfterRun(s, events), i, w)
      {
        var k := FinishedIsStored(s, events, i);
      }
    } else {
      CutShort(w);
    }
  }

  // ---------------------------------------------------------------------------------------
  // Files the server falls behind with
  // ---------------------------------------------------------------------------------------

  /** A file of these buffers has the link, and its write request has reached the server. */
  ghost predicate AtWork(s: Sys, events: seq<Event>, w: seq<seq<byte>>)
    requires InitialSys(s) && AllowedRun(s, events)
  {
    var h := AfterRun(s, events).h;
    && h.running && h.busy && h.ioArg.Some? && h.ioArg.value in AfterRun(s, events).owners
    && Given(s, events, h.ioArg.value) == w
  }

  predicate InStepNow(s: Sys) {
    && s.sessions != [] && s.h.ioArg.Some? && s.h.ioArg.value < |s.h.transfers|
    && LastBlock(s.sessions[|s.sessions| - 1], s.h.transfers[s.h.ioArg.value].blknum)
  }

  /** While a file of these buffers has the link, the server's last block is its block number or one less. */
  ghost predicate AlwaysInStep(w: seq<seq<byte>>) {
    forall s: Sys, events: seq<Event> | InitialSys(s) && AllowedRun(s, events) ::
      AtWork(s, events, w) ==> InStepNow(AfterRun(s, events))
  }

  lemma FullEarlier(w: seq<seq<byte>>, n: nat)
    requires FullBefore(w, |Payloads(w)|) && n <= |Payloads(w)|
    ensures FullBefore(w, n)
  {
    hide Payloads;
  }

  lemma LongEnough(w: seq<seq<byte>>)
    requires !FullBefore(w, |Payloads(w)|)
    ensures Payloads(w) != []
  {
    hide Payloads;
  }

  lemma WaitsAtWork(w: seq<seq<byte>>, s: Sys)
    requires Waits(w, s, Before(w), DataOut, |Payloads(w)|)
    ensures s.h.running && s.h.busy && s.h.ioArg.Some? && s.h.ioArg.value in s.owners
    ensures s.h.ioArg.value < |s.h.transfers| && s.h.transfers[s.h.ioArg.value].writes == w
    ensures s.h.transfers[s.h.ioArg.value].blknum == |Payloads(w)|
  {
    hide Payloads, Alone, XferOk, Inv, Books, LineOk, ChunkOf;
    UnderFacts(s, Before(w), DataOut);
    PhaseBusy(s.h, Before(w), DataOut);
    PacketNumber(s.h.transfers[Before(w)], DataOut);
    RunningBusy(s, DataOut);
    Answering(s);
  }

  lemma RunningBusy(s: Sys, ph: Phase)
    requires SysInv(s, ph) && s.h.running && ph != Rest
    ensures s.h.busy
  {
    hide Books, ActiveOk;
    InvActive(s.h, ph);
  }

  lemma Answering(s: Sys)
    requires SysInv(s, DataOut) && s.h.running && s.h.ioArg.Some?
    ensures s.h.ioArg.value in s.owners
  {
    hide Books, Inv, XferOk, Expected, Follows, InStep;
  }

  lemma FallsBehind(w: seq<seq<byte>>)
    requires Fitting(w) && !FullBefore(w, |Payloads(w)|)
    ensures !AlwaysInStep(w)
  {
    hide AllowedRun, AfterRun, Pause, Waits, Payloads, FullBefore, LastBlock, Given, Told, PathsIn, NameOf;
    LongEnough(w);
    var a := Prepares(w);
    var b := AllTimeOut(w, a, 0);
    var c := LastSends(w, b);
    LeadsTwice(Start(), a, b);
    LeadsTwice(Start(), b, c);
    var events :| AllowedRun(Start(), events) && AfterRun(Start(), events) == c;
    WaitsAtWork(w, c);
    GivenIs(Start(), events);
    BlocksInStep(Start(), events);
  }

  /** Among the files of at most 65535 blocks that fit their frames, those the server never falls behind with
      are exactly those no payload of which but the last two is short. */
  lemma StepExact(w: seq<seq<byte>>)
    requires Fitting(w)
    ensures AlwaysInStep(w) <==> FullBefore(w, |Payloads(w)|)
  {
    hide AllowedRun, AfterRun, Payloads, FullBefore, LastBlock, Given, Told, PathsIn, NameOf;
    if FullBefore(w, |Payloads(w)|) {
      forall s: Sys, events: seq<Event> | InitialSys(s) && AllowedRun(s, events) && AtWork(s, events, w)
        ensures InStepNow(AfterRun(s, events))
      {
        BlocksInStep(s, events);
        FullEarlier(w, AfterRun(s, events).h.transfers[AfterRun(s, events).h.ioArg.value].blknum);
      }
    } else {
      FallsBehind(w);
    }
  }
}

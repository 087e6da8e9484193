/** A write-side TFTP server (RFC 1350, sections 2 and 6) that keeps every session it has served. */
module Server {
  import opened Bytes
  import opened Packets

  /** The payloads accepted for one write request, done once one of them was short; and, as history, the
      DATA packets that have arrived for it. */
  datatype Session = Session(name: seq<byte>, got: seq<seq<byte>>, done: bool, heard: seq<Packet>)

  const ILLEGAL: word := 4

  predicate SessionOk(s: Session) {
    && (forall k :: 0 <= k < |s.got| ==> |s.got[k]| <= BLOCK_SIZE)
    && (forall k :: 0 <= k < |s.got| - 1 ==> |s.got[k]| == BLOCK_SIZE)
    && (s.done <==> s.got != [] && |s.got[|s.got| - 1]| < BLOCK_SIZE)
  }

  /** The wire number of the n-th block, counted from 1. */
  function Wire(n: nat): word {
    n % 0x10000
  }

  /** The DATA packets for a list of payloads: numbered from 1, on the wire modulo 65536. */
  function Numbered(payloads: seq<seq<byte>>): (r: seq<Packet>)
    ensures |r| == |payloads|
  {
    seq(|payloads|, k requires 0 <= k < |payloads| => Data(Wire(k + 1), payloads[k]))
  }

  lemma NumberedAppend(payloads: seq<seq<byte>>, c: seq<byte>)
    ensures Numbered(payloads + [c]) == Numbered(payloads) + [Data(Wire(|payloads| + 1), c)]
  {
  }

  lemma NumberedPrefix(a: seq<seq<byte>>, b: seq<seq<byte>>)
    ensures Numbered(a) <= Numbered(a + b)
    ensures b == [] ==> Numbered(a) == Numbered(a + b)
  {
    assert b == [] ==> a + b == a;
  }

  lemma NumberedInjective(a: seq<seq<byte>>, b: seq<seq<byte>>)
    ensures Numbered(a) == Numbered(b) <==> a == b
  {
    if Numbered(a) == Numbered(b) {
      forall k | 0 <= k < |a|
        ensures a[k] == b[k]
      {
        assert Numbered(a)[k] == Data(Wire(k + 1), a[k]) && Numbered(b)[k] == Data(Wire(k + 1), b[k]);
      }
    }
  }

  predicate Accepts(s: Session, blknum: word, bytes: seq<byte>) {
    !s.done && blknum == Wire(|s.got| + 1) && |bytes| <= BLOCK_SIZE
  }

  /** One DATA packet for the session: the next block is stored, the last one is acknowledged again,
      anything else is refused. */
  function Store(s: Session, blknum: word, bytes: seq<byte>): Session {
    var heard := s.heard + [Data(blknum, bytes)];
    if Accepts(s, blknum, bytes) then Session(s.name, s.got + [bytes], |bytes| < BLOCK_SIZE, heard)
    else s.(heard := heard)
  }

  function Answer(s: Session, blknum: word, bytes: seq<byte>): seq<byte> {
    if Accepts(s, blknum, bytes) || (s.got != [] && blknum == Wire(|s.got|)) then AckBytes(blknum)
    else ErrorBytes(ILLEGAL)
  }

  /** The sessions after packet p. */
  function Serve(sessions: seq<Session>, p: Packet): seq<Session> {
    match p
    case Wrq(name) => sessions + [Session(name, [], false, [])]
    case Data(blknum, bytes) =>
      if sessions == [] then sessions
      else
        var last := |sessions| - 1;
        sessions[last := Store(sessions[last], blknum, bytes)]
  }

  /** The reply to packet p. */
  function Reply(sessions: seq<Session>, p: Packet): seq<byte> {
    match p
    case Wrq(_) => AckBytes(0)
    case Data(blknum, bytes) =>
      if sessions == [] then ErrorBytes(ILLEGAL) else Answer(sessions[|sessions| - 1], blknum, bytes)
  }

  lemma StoreOk(s: Session, blknum: word, bytes: seq<byte>)
    requires SessionOk(s)
    ensures SessionOk(Store(s, blknum, bytes))
  {
  }

  lemma WireNext(n: nat)
    ensures Wire(n + 1) != Wire(n)
  {
  }

  /** The block after the last one is accepted unless the session is done; then it is refused. */
  lemma StoreNext(s: Session, bytes: seq<byte>)
    requires |bytes| <= BLOCK_SIZE
    ensures Store(s, Wire(|s.got| + 1), bytes).got == if s.done then s.got else s.got + [bytes]
    ensures Store(s, Wire(|s.got| + 1), bytes).name == s.name
    ensures Answer(s, Wire(|s.got| + 1), bytes)
         == if s.done then ErrorBytes(ILLEGAL) else AckBytes(Wire(|s.got| + 1))
  {
    hide Wire, AckBytes, ErrorBytes;
    WireNext(|s.got|);
    if !s.done {
      assert |s.got + [bytes]| == |s.got| + 1;
    }
  }

  /** A session that is done stores nothing any more. */
  lemma StoreDone(s: Session, blknum: word, bytes: seq<byte>)
    requires s.done
    ensures Store(s, blknum, bytes) == s.(heard := s.heard + [Data(blknum, bytes)])
  {
  }
}

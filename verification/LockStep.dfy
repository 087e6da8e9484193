/** The lock-step client of minitftp.c against the server: the whole file arrives. */
module LockStep {
  import opened Bytes
  import opened Packets
  import opened Engine
  import opened Delivery
  import opened Server
  import opened Shape
  import opened MiniTftp

  /** What acknowledges block k, told from the bytes of the reply: opcode 4 and, but for the reply to the
      request, the number of the block. */
  lemma AcknowledgedExact(pkt: seq<byte>, replies: seq<seq<byte>>, k: nat)
    requires |pkt| >= 4 && k < |replies| && |replies[k]| >= 4
    ensures Acknowledged(pkt, replies, k) <==>
              Field(replies[k], 0) == 4 && (k > 0 ==> Field(replies[k], 2) == k % 0x10000)
  {
    hide Overlay, GetOpcode, GetBlknum;
    var before := PktAfter(pkt, replies, k);
    NextReply(pkt, replies, k);
    FrontOfOverlay(before, replies[k], replies[k]);
    WordIs(replies[k]);
  }

  lemma WordIs(b: seq<byte>)
    requires |b| >= 4
    ensures GetOpcode(b) == Field(b, 0) && GetBlknum(b) == Field(b, 2)
  {
  }

  /** The session after the first n blocks of a file. */
  function Holding(name: seq<byte>, blocks: seq<seq<byte>>, n: nat): Session
    requires n <= |blocks|
  {
    if n == 0 then Session(name, [], false, [])
    else Store(Holding(name, blocks, n - 1), Wire(n), blocks[n - 1])
  }

  /** What the server answers to the request and to each block. */
  function Answers(name: seq<byte>, blocks: seq<seq<byte>>): seq<seq<byte>> {
    [AckBytes(0)] +
    seq(|blocks|, n requires 0 <= n < |blocks| => Answer(Holding(name, blocks, n), Wire(n + 1), blocks[n]))
  }

  /** Blocks that end normally are all taken. */
  lemma {:induction false} AllTaken(name: seq<byte>, blocks: seq<seq<byte>>, n: nat)
    requires WellEnded(blocks) && n <= |blocks|
    ensures Holding(name, blocks, n).got == blocks[..n] && Holding(name, blocks, n).name == name
    ensures Holding(name, blocks, n).done <==> n == |blocks|
    ensures n < |blocks| ==> Answer(Holding(name, blocks, n), Wire(n + 1), blocks[n]) == AckBytes(Wire(n + 1))
    decreases n
  {
    hide AckBytes, Wire;
    if n > 0 {
      AllTaken(name, blocks, n - 1);
      var s := Holding(name, blocks, n - 1);
      assert |s.got| == n - 1 && |blocks[n - 1]| <= BLOCK_SIZE;
      assert s.got + [blocks[n - 1]] == blocks[..n];
      assert n < |blocks| ==> Full(blocks[n - 1]);
    }
    assert n < |blocks| ==> |blocks[n]| <= BLOCK_SIZE;
  }

  lemma AnswerAt(name: seq<byte>, blocks: seq<seq<byte>>, k: nat)
    requires WellEnded(blocks) && k <= |blocks|
    ensures k < |Answers(name, blocks)| && Answers(name, blocks)[k] == AckBytes(Wire(k))
  {
    hide WellEnded, AckBytes, Answer, Holding, Wire;
    if k > 0 {
      AllTaken(name, blocks, k - 1);
    } else {
      ZeroWire();
    }
  }

  lemma ZeroWire()
    ensures Wire(0) == 0
  {
  }

  lemma AckIs(n: word)
    ensures |AckBytes(n)| == 4 && Field(AckBytes(n), 0) == 4 && Field(AckBytes(n), 2) == n
  {
  }

  lemma AllAcknowledged(pkt0: seq<byte>, name: seq<byte>, blocks: seq<seq<byte>>, k: nat)
    requires |pkt0| >= 4 && WellEnded(blocks) && k <= |blocks|
    ensures Acknowledged(pkt0, Answers(name, blocks), k)
  {
    hide Acknowledged, WellEnded, AckBytes, Answers, Field;
    AnswerAt(name, blocks, k);
    AckIs(Wire(k));
    AcknowledgedExact(pkt0, Answers(name, blocks), k);
  }

  /** Every outcome the loop may have with the server, if nothing goes wrong at the client's end: it ends
      without an error, all blocks are sent, and the server has seen the end of exactly the file. */
  lemma LockStepArrives(
    file: seq<byte>, name: seq<byte>, pkt0: seq<byte>, sent: seq<Packet>, error: bool)
    requires |pkt0| >= 4
    requires var replies := Answers(name, FileChunks(file));
             && sent <= Numbered(FileChunks(file))
             && (|sent| < |FileChunks(file)| ==> Stops(pkt0, replies, true, [], |sent|))
             && (error <==> |sent| < |FileChunks(file)| || !Acknowledged(pkt0, replies, |sent|))
    ensures !error && sent == Numbered(FileChunks(file))
    ensures var s := Holding(name, FileChunks(file), |FileChunks(file)|);
            s.name == name && s.done && Flatten(s.got) == file
  {
    hide FileChunks, Acknowledged, Numbered, Answers, Holding;
    var blocks := FileChunks(file);
    FileChunksEnd(file);
    AllAcknowledged(pkt0, name, blocks, |sent|);
    AllTaken(name, blocks, |blocks|);
    assert blocks[..|blocks|] == blocks;
  }
}

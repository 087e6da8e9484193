/** The send loop of minitftp.c, the simple lock-step client. */
module MiniTftp {
  import opened Bytes
  import opened Packets
  import opened Engine
  import opened Server
  import opened Shape

  /** The packet buffer after the first k replies: a shorter reply leaves older bytes behind it. */
  function PktAfter(pkt: seq<byte>, replies: seq<seq<byte>>, k: nat): (r: seq<byte>)
    requires k <= |replies|
    ensures |r| >= |pkt|
  {
    if k == 0 then pkt else Overlay(PktAfter(pkt, replies, k - 1), replies[k - 1])
  }

  /** Reply k is there and acknowledges block k; the write request counts as block 0, and for it any
      number will do. */
  predicate Acknowledged(pkt: seq<byte>, replies: seq<seq<byte>>, k: nat)
    requires |pkt| >= 4
  {
    && k < |replies|
    && GetOpcode(PktAfter(pkt, replies, k + 1)) == OP_ACK
    && (k > 0 ==> GetBlknum(PktAfter(pkt, replies, k + 1)) == Wire(k))
  }

  /** Reading the file in pieces of 512 bytes. */
  function Piece(file: seq<byte>, pos: nat): (c: seq<byte>)
    requires pos <= |file|
    ensures |c| <= TFTP_MAX_DATA_SIZE
  {
    file[pos..Min(pos + TFTP_MAX_DATA_SIZE, |file|)]
  }

  lemma NextPiece(file: seq<byte>, pos: nat)
    requires pos <= |file|
    ensures FileChunks(file[pos..]) == [Piece(file, pos)] +
              if |Piece(file, pos)| == TFTP_MAX_DATA_SIZE then FileChunks(file[pos + TFTP_MAX_DATA_SIZE..]) else []
  {
    var rest := file[pos..];
    if |rest| >= TFTP_MAX_DATA_SIZE {
      assert rest[..TFTP_MAX_DATA_SIZE] == Piece(file, pos);
      assert rest[TFTP_MAX_DATA_SIZE..] == file[pos + TFTP_MAX_DATA_SIZE..];
    } else {
      assert rest == Piece(file, pos);
    }
  }

  lemma NextReply(pkt: seq<byte>, replies: seq<seq<byte>>, k: nat)
    requires |pkt| >= 4 && k < |replies|
    ensures PktAfter(pkt, replies, k + 1) == Overlay(PktAfter(pkt, replies, k), replies[k])
    ensures Acknowledged(pkt, replies, k) <==>
              GetOpcode(PktAfter(pkt, replies, k + 1)) == OP_ACK
              && (k > 0 ==> GetBlknum(PktAfter(pkt, replies, k + 1)) == Wire(k))
  {
  }

  lemma NoReply(pkt: seq<byte>, replies: seq<seq<byte>>)
    requires |pkt| >= 4
    ensures !Acknowledged(pkt, replies, |replies|)
  {
  }

  lemma NextWire(n: nat)
    ensures (Wire(n) + 1) % 0x10000 == Wire(n + 1)
  {
  }

  /** The blocks sent so far, as far as the file goes, and the rest of the file. */
  predicate Divided(file: seq<byte>, payloads: seq<seq<byte>>, pos: nat, buflen: nat) {
    && pos <= |file| && buflen <= TFTP_MAX_DATA_SIZE
    && FileChunks(file) == payloads + if buflen == TFTP_MAX_DATA_SIZE then FileChunks(file[pos..]) else []
  }

  lemma CutStep(file: seq<byte>, payloads: seq<seq<byte>>, pos: nat)
    requires Divided(file, payloads, pos, TFTP_MAX_DATA_SIZE)
    ensures var c := Piece(file, pos); Divided(file, payloads + [c], pos + |c|, |c|)
  {
    hide FileChunks;
    NextPiece(file, pos);
  }

  /** Every block before the n-th is acknowledged, and so is the n-th as the packet buffer has it. */
  predicate Heard(pkt0: seq<byte>, replies: seq<seq<byte>>, n: nat, pkt: seq<byte>)
    requires |pkt0| >= 4
  {
    && (forall k :: 0 <= k <= n ==> Acknowledged(pkt0, replies, k)) && n < |replies|
    && pkt == PktAfter(pkt0, replies, n + 1)
  }

  /** What can go wrong with a block: the file cannot be read, or the packet cannot be sent. */
  datatype Fault = NoFault | ReadFails | SendFails

  predicate Faulty(faults: seq<Fault>, k: nat) {
    k < |faults| && faults[k] != NoFault
  }

  /** Why the loop stops after n blocks were sent: the request could not be sent, the n-th block is not
      acknowledged, or the next one fails. */
  predicate Stops(pkt0: seq<byte>, replies: seq<seq<byte>>, request: bool, faults: seq<Fault>, n: nat)
    requires |pkt0| >= 4
  {
    && (forall k :: 0 <= k < n ==> Acknowledged(pkt0, replies, k))
    && ((!request && n == 1) || !Acknowledged(pkt0, replies, n) || Faulty(faults, n))
  }

  /** From the write request to the end of the loop; a missing reply is a failed receive. The packets sent
      are the first DATA packets of the file, without a fault and each but the last acknowledged. It stops
      early only for a reason, and reports an error exactly if it has stopped early, the last block is not
      acknowledged, or the request could not be sent: it then sends one block all the same. */
  method SendFile(file: seq<byte>, pkt0: seq<byte>, replies: seq<seq<byte>>, request: bool, faults: seq<Fault>)
    returns (sent: seq<Packet>, error: bool)
    requires |pkt0| >= 4
    ensures sent <= Numbered(FileChunks(file))
    ensures forall k :: 0 <= k < |sent| ==> Acknowledged(pkt0, replies, k) && !Faulty(faults, k)
    ensures |sent| < |FileChunks(file)| ==> Stops(pkt0, replies, request, faults, |sent|)
    ensures error <==> !request || |sent| < |FileChunks(file)| || !Acknowledged(pkt0, replies, |sent|)
    ensures !error ==> sent == Numbered(FileChunks(file))
    ensures !request ==> |sent| <= 1
  {
    hide Overlay, GetOpcode, GetBlknum, FileChunks, PktAfter, Numbered, Piece, Wire, Acknowledged, Divided;
    sent, error := [], !request;
    NumberedPrefix([], FileChunks(file));
    NumberedPrefix([], []);
    ChunksThere(file);
    if replies == [] {
      NoReply(pkt0, replies);
      return [], true;
    }
    NextReply(pkt0, replies, 0);
    FirstPkt(pkt0, replies);
    var pkt := Overlay(pkt0, replies[0]);
    if GetOpcode(pkt) != OP_ACK {
      return [], true;
    }
    var blknum: word, n: nat, pos: nat, buflen: int, first := 0, 0, 0, TFTP_MAX_DATA_SIZE, true;
    ghost var payloads: seq<seq<byte>>, upto: nat, last: nat := [], 0, TFTP_MAX_DATA_SIZE;
    CutStart(file);
    while first || (buflen == TFTP_MAX_DATA_SIZE && !error)
      invariant sent == Numbered(payloads) && Divided(file, payloads, upto, last) && upto <= |file|
      invariant first || !error ==>
                  n == |payloads| && blknum == Wire(n) && pos == upto && buflen == last && Heard(pkt0, replies, n, pkt)
      invariant first ==> n == 0 && last == TFTP_MAX_DATA_SIZE && error == !request
      invariant !first && error ==>
                  Stops(pkt0, replies, request, faults, |payloads|)
                  && (!request || last == TFTP_MAX_DATA_SIZE || !Acknowledged(pkt0, replies, |payloads|))
      invariant !first && !request ==> error && |payloads| <= 1
      invariant forall k :: 0 <= k < |payloads| ==> Acknowledged(pkt0, replies, k) && !Faulty(faults, k)
      decreases first, !error, |file| - upto, last
    {
      NextWire(n);
      CutStep(file, payloads, pos);
      NumberedAppend(payloads, Piece(file, pos));
      PieceLength(file, pos);
      first := false;
      blknum := (blknum + 1) % 0x10000;
      var buffer := Piece(file, pos);
      if n < |faults| && faults[n] == ReadFails {
        buflen := -1;
        error := true;
      } else {
        buflen := |buffer|;
        pos := pos + |buffer|;
        if n < |faults| && faults[n] == SendFails {
          error := true;
        } else {
          sent := sent + [Data(blknum, buffer)];
          payloads, upto, last := payloads + [buffer], pos, |buffer|;
        }
      }
      n := n + 1;
      if n == |replies| {
        NoReply(pkt0, replies);
        error := true;
      } else {
        NextReply(pkt0, replies, n);
        pkt := Overlay(pkt, replies[n]);
        if GetOpcode(pkt) != OP_ACK || GetBlknum(pkt) != blknum {
          error := true;
        }
      }
    }
    CutEnd(file, payloads, upto, last);
  }

  lemma ChunksThere(file: seq<byte>)
    ensures FileChunks(file) != []
  {
  }

  lemma CutStart(file: seq<byte>)
    ensures Divided(file, [], 0, TFTP_MAX_DATA_SIZE)
  {
    assert file[0..] == file && [] + FileChunks(file) == FileChunks(file);
  }

  lemma CutEnd(file: seq<byte>, payloads: seq<seq<byte>>, pos: nat, buflen: nat)
    requires Divided(file, payloads, pos, buflen)
    ensures Numbered(payloads) <= Numbered(FileChunks(file))
    ensures if buflen == TFTP_MAX_DATA_SIZE then |payloads| < |FileChunks(file)| else payloads == FileChunks(file)
  {
    hide FileChunks;
    NumberedPrefix(payloads, if buflen == TFTP_MAX_DATA_SIZE then FileChunks(file[pos..]) else []);
    assert payloads + [] == payloads;
    ChunksThere(file[pos..]);
  }

  lemma FirstPkt(pkt: seq<byte>, replies: seq<seq<byte>>)
    requires replies != []
    ensures PktAfter(pkt, replies, 0) == pkt && Wire(0) == 0
  {
  }

  lemma PieceLength(file: seq<byte>, pos: nat)
    requires pos <= |file|
    ensures |Piece(file, pos)| == Min(TFTP_MAX_DATA_SIZE, |file| - pos)
  {
  }
}

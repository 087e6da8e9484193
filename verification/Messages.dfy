/** The messages the handler receives at its port, and the two I/O requests it owns. T is the type
    of a reference to a FileTransfer. */
module Messages {
  import opened Bytes

  /** DOS packets from clients, internal packets, and the replies of the two I/O requests. The
      client packets that never touch a transfer (locks, queue listing, file system query and unknown
      types) are all Other. */
  datatype Msg<T> =
    | FindOutput(path: CString)
    | Write(ftx: T, bytes: seq<byte>)
    | End(ftx: T)
    | Die
    | Other
    | SendNextFile
    | SendNextBuffer(ftx: T)
    | ContinueBuffer(ftx: T)
    | BufferFinished(ftx: T)
    | FileFinished(ftx: T)
    | FileFailed(ftx: T)
    | SerialReply
    | TimerReply
  {
    predicate HasFtx() {
      !FindOutput? && !Die? && !Other? && !SendNextFile? && !SerialReply? && !TimerReply?
    }
  }

  /** The roles messages play: packets of clients, the packet that carries the active transfer on,
      packets that make the handler look for the next file, and I/O completions. */
  datatype Kind = Client | Active | Wake | Serial | Timer

  function KindOf<T>(m: Msg<T>): Kind {
    match m
    case FindOutput(_) => Client
    case Write(_, _) => Client
    case End(_) => Client
    case Die => Client
    case Other => Client
    case SendNextBuffer(_) => Active
    case ContinueBuffer(_) => Active
    case BufferFinished(_) => Active
    case SendNextFile => Wake
    case FileFinished(_) => Wake
    case FileFailed(_) => Wake
    case SerialReply => Serial
    case TimerReply => Timer
  }

  /** The packets the handler sends to itself, all in the one outpkt. */
  predicate Internal<T>(m: Msg<T>) {
    KindOf(m) == Active || KindOf(m) == Wake
  }

  /** The messages of one kind, in order. */
  function Of<T>(q: seq<Msg<T>>, k: Kind): seq<Msg<T>> {
    if q == [] then []
    else if KindOf(q[0]) == k then [q[0]] + Of(q[1..], k)
    else Of(q[1..], k)
  }

  /** The port after WaitIO has taken the reply of a request off it. */
  function Without<T>(q: seq<Msg<T>>, k: Kind): seq<Msg<T>> {
    if q == [] then []
    else if KindOf(q[0]) == k then Without(q[1..], k)
    else [q[0]] + Without(q[1..], k)
  }

  lemma {:induction false} OfConcat<T>(a: seq<Msg<T>>, b: seq<Msg<T>>, k: Kind)
    ensures Of(a + b, k) == Of(a, k) + Of(b, k)
  {
    hide KindOf;
    if a == [] {
      assert a + b == b;
    } else {
      assert (a + b)[1..] == a[1..] + b;
      OfConcat(a[1..], b, k);
    }
  }

  lemma OfAppend<T>(q: seq<Msg<T>>, m: Msg<T>)
    ensures forall k :: Of(q + [m], k) == Of(q, k) + (if KindOf(m) == k then [m] else [])
  {
    forall k
      ensures Of(q + [m], k) == Of(q, k) + (if KindOf(m) == k then [m] else [])
    {
      OfConcat(q, [m], k);
      assert [m][1..] == [];
      assert Of([m], k) == if KindOf(m) == k then [m] else [];
    }
  }

  lemma {:induction false} OfWithout<T>(q: seq<Msg<T>>, gone: Kind)
    ensures forall k :: Of(Without(q, gone), k) == if k == gone then [] else Of(q, k)
  {
    if q != [] {
      OfWithout(q[1..], gone);
      forall k {
        OfConcat(if KindOf(q[0]) == gone then [] else [q[0]], Without(q[1..], gone), k);
      }
    }
  }

  lemma {:induction false} WithoutMembers<T>(q: seq<Msg<T>>, k: Kind)
    ensures forall m :: m in Without(q, k) <==> m in q && KindOf(m) != k
  {
    if q != [] {
      WithoutMembers(q[1..], k);
    }
  }

  lemma {:induction false} OfMembers<T>(q: seq<Msg<T>>, k: Kind)
    ensures forall m :: m in Of(q, k) <==> m in q && KindOf(m) == k
  {
    if q != [] {
      OfMembers(q[1..], k);
    }
  }

  /** An I/O request: unused, sent, or replied with its status and, for a read, what it brought. W is
      what a write carries, R what a read brings. */
  datatype Op<W> = OpWrite(data: W) | OpRead
  datatype Request<W, R> =
    | Idle
    | Pending(op: Op<W>)
    | Replied(op: Op<W>, status: nat, reply: R)

  datatype Countdown = Stopped | Running | Fired

  datatype IoType = NoIo | WriteReturn | ReadReturn
}

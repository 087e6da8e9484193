/** The listing of the queue: locks, EXAMINE_OBJECT and EXAMINE_NEXT of dos.c. Pointers into the list of
    transfers, which only grows at its end, are positions. */
module Listing {
  import opened Bytes
  import opened Packets
  import opened Engine
  import opened Handler
  import opened Paths

  const ERROR_OBJECT_NOT_FOUND := 205
  const ERROR_INVALID_LOCK := 211
  const ERROR_NO_MORE_ENTRIES := 232
  const ERROR_NOT_IMPLEMENTED := 236

  /** fl_Key: 0 for the root directory, or a transfer. */
  datatype Key = Root | File(at: nat)

  /** fib_DiskKey: a transfer, or the end of the list, where ln_Succ of the last transfer leads. */
  datatype Position = At(at: nat) | Tail

  function Succ(at: nat, n: nat): Position {
    if at + 1 < n then At(at + 1) else Tail
  }

  // ---------------------------------------------------------------------------------------
  // A whole listing
  // ---------------------------------------------------------------------------------------

  /** The caller's side of a listing: how many transfers there are, where the next call will look, what
      the calls have returned so far, how many transfers there were when the last of them returned
      something, and whether the end has been reported. */
  datatype Walk = Walk(n: nat, cursor: Position, returned: seq<nat>, seen: nat, ended: bool)

  datatype Call = Append | Next

  /** EXAMINE_OBJECT on the root directory of a queue of n transfers. */
  function Begin(n: nat): Walk
    requires n > 0
  {
    Walk(n, At(0), [], n, false)
  }

  function Called(w: Walk, c: Call): Walk {
    match c
    case Append => w.(n := w.n + 1)
    case Next =>
      match w.cursor
      case Tail => w.(ended := true)
      case At(i) => w.(cursor := Succ(i, w.n), returned := w.returned + [i], seen := w.n)
  }

  function Walked(w: Walk, calls: seq<Call>): Walk
    decreases |calls|
  {
    if calls == [] then w else Walked(Called(w, calls[0]), calls[1..])
  }

  /** The first k transfers, in order. */
  function FirstOnes(k: nat): seq<nat> {
    seq(k, i => i)
  }

  predicate InOrder(w: Walk) {
    && w.returned == FirstOnes(|w.returned|) && w.seen <= w.n && |w.returned| <= w.seen
    && w.cursor == (if |w.returned| < w.seen then At(|w.returned|) else Tail)
    && (w.ended ==> w.cursor == Tail)
  }

  lemma {:induction false} WalkInOrder(w: Walk, calls: seq<Call>)
    requires InOrder(w)
    ensures InOrder(Walked(w, calls)) && w.n <= Walked(w, calls).n && w.seen <= Walked(w, calls).seen
    ensures w.returned <= Walked(w, calls).returned
    decreases |calls|
  {
    if calls != [] {
      var r := Called(w, calls[0]);
      assert FirstOnes(|w.returned|) + [|w.returned|] == FirstOnes(|w.returned| + 1);
      WalkInOrder(r, calls[1..]);
    }
  }

  /** However transfers are added between the calls, a listing that has reached its end has returned,
      once each and in order, exactly the transfers there were when it returned the last one. */
  lemma ListingExact(n: nat, calls: seq<Call>)
    requires n > 0
    ensures var w := Walked(Begin(n), calls);
            && w.returned == FirstOnes(|w.returned|) && n <= w.seen <= w.n && |w.returned| <= w.seen
            && (w.ended ==> w.returned == FirstOnes(w.seen))
  {
    WalkInOrder(Begin(n), calls);
  }

  /** A listing asked often enough reaches its end: every call but one returns a transfer. */
  lemma {:induction false} ListingEnds(w: Walk, calls: seq<Call>)
    requires InOrder(w) && !w.ended
    requires forall k :: 0 <= k < |calls| ==> calls[k] == Next
    ensures Walked(w, calls).ended <==> |calls| > if w.cursor == Tail then 0 else w.n - |w.returned|
    decreases |calls|
  {
    if calls != [] {
      var r := Called(w, calls[0]);
      assert FirstOnes(|w.returned|) + [|w.returned|] == FirstOnes(|w.returned| + 1);
      if r.ended {
        StaysEnded(r, calls[1..]);
      } else {
        ListingEnds(r, calls[1..]);
      }
    }
  }

  lemma {:induction false} StaysEnded(w: Walk, calls: seq<Call>)
    requires w.ended
    ensures Walked(w, calls).ended
    decreases |calls|
  {
    if calls != [] {
      StaysEnded(Called(w, calls[0]), calls[1..]);
    }
  }

  // ---------------------------------------------------------------------------------------
  // Names
  // ---------------------------------------------------------------------------------------

  const NET: seq<byte> := [110, 101, 116, 58]

  /** strstr(name, "//") */
  predicate IsUrl(name: seq<byte>) {
    exists k :: 0 <= k < |name| - 1 && name[k] == 47 && name[k + 1] == 47
  }

  const MAX_FILENAME_LEN := 108

  /** fib_FileName: a length byte, at most 106 characters of the name, and zeros. */
  function NameField(fname: FileName): (r: seq<byte>)
    ensures |r| == 108 && r[107] == 0
    ensures r[0] == (|fname| % 108 + 255) % 256 && (0 < |fname| < 108 ==> r[0] == |fname| - 1)
    ensures |fname| <= 106 ==> r[1..|fname| + 1] == fname && r[|fname| + 1] == 0
    ensures |fname| > 106 ==> r[1..107] == fname[..106]
  {
    var length := |fname| % MAX_FILENAME_LEN - 1;
    var n := Min(|fname|, MAX_FILENAME_LEN - 2);
    [if length < 0 then 255 else length] + fname[..n] + seq(MAX_FILENAME_LEN - 1 - n, i => 0)
  }

  // ---------------------------------------------------------------------------------------
  // The code
  // ---------------------------------------------------------------------------------------

  datatype Response = Success | LockOf(lock: Lock) | Failure(error: nat)

  class Lock {
    const key: Key
    const access: int

    constructor (k: Key, mode: int)
      ensures key == k && access == mode
    {
      key, access := k, mode;
    }
  }

  class FileInfoBlock {
    var diskKey: Position
    var protection: FileState
    var size: nat
    var root: bool
    var fileName: seq<byte>
    var comment: seq<byte>

    constructor ()
      ensures |fileName| == 108 && comment != []
    {
      diskKey, protection, size, root := Tail, Queued, 0, false;
      fileName, comment := seq(MAX_FILENAME_LEN, i => 0), [0];
    }
  }

  class Directory {
    var transfers: seq<FileTransfer>
    var locks: seq<Lock>

    /** No lock is listed twice, and every key is 0 or a member of the list. */
    ghost predicate Valid()
      reads this
    {
      && (forall k :: 0 <= k < |locks| ==> locks[k].key.File? ==> locks[k].key.at < |transfers|)
      && (forall k, l :: 0 <= k < l < |locks| ==> locks[k] != locks[l])
    }

    constructor ()
      ensures Valid() && transfers == [] && locks == []
    {
      transfers, locks := [], [];
    }

    method Append(ftx: FileTransfer)
      requires Valid()
      modifies this`transfers
      ensures Valid() && transfers == old(transfers) + [ftx]
    {
      transfers := transfers + [ftx];
    }

    method FindLockInList(flock: Lock?) returns (at: int)
      ensures at == -1 <==> flock !in locks
      ensures at != -1 ==> 0 <= at < |locks| && locks[at] == flock
    {
      at := 0;
      while at < |locks|
        invariant 0 <= at <= |locks| && flock !in locks[..at]
      {
        if locks[at] == flock {
          return;
        }
        at := at + 1;
      }
      at := -1;
    }

    /** FindName: the first transfer of that name. */
    method FindName(name: seq<byte>) returns (at: int)
      ensures at == -1 ==> forall k :: 0 <= k < |transfers| ==> transfers[k].fname != name
      ensures at != -1 ==> 0 <= at < |transfers| && transfers[at].fname == name
      ensures at != -1 ==> forall k :: 0 <= k < at ==> transfers[k].fname != name
    {
      at := 0;
      while at < |transfers|
        invariant 0 <= at <= |transfers| && forall k :: 0 <= k < at ==> transfers[k].fname != name
      {
        if transfers[at].fname == name {
          return;
        }
        at := at + 1;
      }
      at := -1;
    }

    /** A lock is given for the queue itself and for the files in it, by absolute names only. A lock that
        is refused does not enter the list. */
    method LocateObject(relative: bool, fname: CString, mode: int, memory: bool) returns (r: Response)
      requires Valid()
      modifies this`locks
      ensures Valid()
      ensures r.LockOf? ==> fresh(r.lock) && locks == old(locks) + [r.lock] && memory && !relative && !IsUrl(fname)
      ensures r.LockOf? ==> r.lock.access == mode
      ensures r.LockOf? ==>
                match r.lock.key
                case Root => fname == [110, 101, 116, 58]
                case File(i) =>
                  && fname != [110, 101, 116, 58] && i < |transfers|
                  && transfers[i].fname == fname[AfterColon(fname, |fname|)..]
                  && forall k :: 0 <= k < i ==> transfers[k].fname != transfers[i].fname
      ensures !r.LockOf? ==> locks == old(locks) && r.Failure?
      ensures r.Failure? ==>
                r.error == if !memory then 103
                           else if relative then 236
                           else 205
      ensures r.Failure? && memory && !relative && !IsUrl(fname) ==>
                fname != [110, 101, 116, 58]
                && forall k :: 0 <= k < |transfers| ==> transfers[k].fname != fname[AfterColon(fname, |fname|)..]
    {
      if !memory {
        return Failure(ERROR_NO_FREE_STORE);
      }
      if relative {
        return Failure(ERROR_NOT_IMPLEMENTED);
      }
      var url := FindSlashes(fname);
      if url {
        return Failure(ERROR_OBJECT_NOT_FOUND);
      }
      var key := Root;
      if fname != NET {
        var at := FindName(fname[AfterColon(fname, |fname|)..]);
        if at == -1 {
          return Failure(ERROR_OBJECT_NOT_FOUND);
        }
        key := File(at);
      }
      var lock := new Lock(key, mode);
      locks := locks + [lock];
      return LockOf(lock);
    }

    method FindSlashes(name: seq<byte>) returns (found: bool)
      ensures found <==> IsUrl(name)
    {
      var k := 0;
      while k + 1 < |name|
        invariant k <= |name|
        invariant forall j :: 0 <= j < k && j < |name| - 1 ==> !(name[j] == SLASH && name[j + 1] == SLASH)
      {
        if name[k] == SLASH && name[k + 1] == SLASH {
          return true;
        }
        k := k + 1;
      }
      return false;
    }

    method FreeLock(flock: Lock?) returns (r: Response)
      requires Valid()
      modifies this`locks
      ensures Valid() && (r == Failure(211) <==> flock != null && flock !in old(locks))
      ensures !r.Failure? ==> r == Success
      ensures flock !in locks && forall l :: l in locks <==> l in old(locks) && l != flock
    {
      if flock == null {
        return Success;
      }
      var at := FindLockInList(flock);
      if at == -1 {
        return Failure(ERROR_INVALID_LOCK);
      }
      ghost var before := locks;
      locks := locks[..at] + locks[at + 1..];
      assert forall l :: l in before ==> l in before[..at] || l == before[at] || l in before[at + 1..];
      return Success;
    }

    method ExamineObject(flock: Lock?, fib: FileInfoBlock) returns (r: Response)
      requires Valid() && |fib.fileName| == 108 && fib.comment != []
      modifies fib
      ensures flock !in locks ==> r == Failure(211)
      ensures flock in locks && flock.key == Root ==>
                r == if transfers == [] then Failure(232) else Success
      ensures flock in locks && flock.key == Root && r == Success ==>
                && fib.diskKey == Begin(|transfers|).cursor && fib.root && fib.size == 0
                && fib.fileName == old(fib.fileName)[0 := 0] && fib.comment == old(fib.comment)[0 := 0]
      ensures flock in locks && flock.key.File? ==>
                && r == Success && flock.key.at < |transfers| && fib.diskKey == At(flock.key.at)
                && fib.protection == transfers[flock.key.at].state && fib.size == transfers[flock.key.at].error
                && fib.fileName == NameField(transfers[flock.key.at].fname)
      ensures |fib.fileName| == 108 && fib.comment != []
      ensures r.Failure? ==> fib.diskKey == old(fib.diskKey)
      ensures !r.LockOf?
    {
      var at := FindLockInList(flock);
      if at == -1 {
        return Failure(ERROR_INVALID_LOCK);
      }
      match locks[at].key
      case Root =>
        if transfers == [] {
          return Failure(ERROR_NO_MORE_ENTRIES);
        }
        fib.diskKey, fib.root, fib.size := At(0), true, 0;
        fib.fileName, fib.comment := fib.fileName[0 := 0], fib.comment[0 := 0];
        return Success;
      case File(i) =>
        fib.diskKey, fib.protection, fib.size := At(i), transfers[i].state, transfers[i].error;
        fib.fileName := NameField(transfers[i].fname);
        return Success;
    }

    /** One step of a listing. The caller passes the FileInfoBlock of the call before. */
    method ExamineNext(flock: Lock?, fib: FileInfoBlock, ghost w: Walk) returns (r: Response)
      requires Valid() && w.n == |transfers| && w.cursor == fib.diskKey && (w.ended ==> w.cursor == Tail)
      requires fib.diskKey.At? ==> fib.diskKey.at < |transfers|
      modifies fib
      ensures flock !in locks || flock.key != Root ==>
                r == Failure(211) && fib.diskKey == old(fib.diskKey)
      ensures flock in locks && flock.key == Root ==>
                && fib.diskKey == Called(w, Next).cursor
                && (Called(w, Next).ended <==> r == Failure(232))
                && (r == Success <==> |Called(w, Next).returned| > |w.returned|)
                && (r == Success ==>
                      && w.cursor.At? && w.cursor.at < |transfers|
                      && Called(w, Next).returned == w.returned + [w.cursor.at]
                      && fib.protection == transfers[w.cursor.at].state && fib.size == transfers[w.cursor.at].error
                      && fib.fileName == NameField(transfers[w.cursor.at].fname))
    {
      var at := FindLockInList(flock);
      if at == -1 {
        return Failure(ERROR_INVALID_LOCK);
      }
      if locks[at].key != Root {
        return Failure(ERROR_INVALID_LOCK);
      }
      match fib.diskKey
      case At(i) =>
        fib.diskKey, fib.protection, fib.size := Succ(i, |transfers|), transfers[i].state, transfers[i].error;
        fib.fileName := NameField(transfers[i].fname);
        return Success;
      case Tail =>
        return Failure(ERROR_NO_MORE_ENTRIES);
    }
  }
}

/** Which lists of buffers a TFTP server recognises the end of. */
module Shape {
  import opened Bytes
  import opened Packets
  import opened Engine
  import opened Files

  predicate Full(c: seq<byte>) {
    |c| == BLOCK_SIZE
  }

  predicate AllFull(p: seq<seq<byte>>) {
    forall k :: 0 <= k < |p| ==> Full(p[k])
  }

  /** Normal termination (section 6 of RFC 1350): the last payload, and no other, is short. */
  predicate WellEnded(p: seq<seq<byte>>) {
    && p != [] && |p[|p| - 1]| < BLOCK_SIZE
    && forall k :: 0 <= k < |p| - 1 ==> Full(p[k])
  }

  /** The payloads a file is sent in by a client that reads 512 bytes at a time until it gets fewer. */
  function FileChunks(file: seq<byte>): (p: seq<seq<byte>>)
    ensures p != []
  {
    if |file| < BLOCK_SIZE then [file]
    else [file[..BLOCK_SIZE]] + FileChunks(file[BLOCK_SIZE..])
  }

  lemma {:induction false} FileChunksEnd(file: seq<byte>)
    ensures WellEnded(FileChunks(file)) && Flatten(FileChunks(file)) == file
  {
    if |file| < BLOCK_SIZE {
      assert Flatten([file]) == file + Flatten([]);
    } else {
      FileChunksEnd(file[BLOCK_SIZE..]);
      var rest := FileChunks(file[BLOCK_SIZE..]);
      assert FileChunks(file)[1..] == rest;
    }
  }

  /** There is only one well-ended way to cut a file. */
  lemma {:induction false} WellEndedUnique(p: seq<seq<byte>>)
    requires WellEnded(p)
    ensures p == FileChunks(Flatten(p))
  {
    var rest := p[1..];
    assert p == [p[0]] + rest;
    if |p| == 1 {
      assert Flatten(p) == p[0] + Flatten(rest);
      assert p[0] + [] == p[0];
    } else {
      assert Full(p[0]);
      assert rest[|rest| - 1] == p[|p| - 1];
      forall k | 0 <= k < |rest| - 1
        ensures Full(rest[k])
      {
        assert rest[k] == p[k + 1];
      }
      WellEndedUnique(rest);
      var file := Flatten(p);
      assert file[..BLOCK_SIZE] == p[0] && file[BLOCK_SIZE..] == Flatten(rest);
    }
  }

  lemma {:induction false} ChunksShape(s: seq<byte>)
    ensures AllFull(Chunks(s)) <==> |s| > 0 && |s| % BLOCK_SIZE == 0
    ensures WellEnded(Chunks(s)) <==> |s| == 0 || |s| % BLOCK_SIZE != 0
  {
    if |s| > BLOCK_SIZE {
      var rest := s[BLOCK_SIZE..];
      ChunksShape(rest);
      assert Full(s[..BLOCK_SIZE]);
      AppendShape([s[..BLOCK_SIZE]], Chunks(rest));
    } else {
      assert Chunks(s)[0] == s;
    }
  }

  lemma AppendShape(a: seq<seq<byte>>, b: seq<seq<byte>>)
    ensures AllFull(a + b) <==> AllFull(a) && AllFull(b)
    ensures b != [] ==> (WellEnded(a + b) <==> AllFull(a) && WellEnded(b))
  {
    var p := a + b;
    forall k | 0 <= k < |a|
      ensures p[k] == a[k]
    {
    }
    forall k | 0 <= k < |b|
      ensures b[k] == p[|a| + k]
    {
    }
    if AllFull(p) {
      forall k | 0 <= k < |a| ensures Full(a[k]) { assert Full(p[k]); }
      forall k | 0 <= k < |b| ensures Full(b[k]) { assert Full(p[|a| + k]); }
    }
    if b != [] && WellEnded(p) {
      forall k | 0 <= k < |a| ensures Full(a[k]) { assert Full(p[k]); }
      forall k | 0 <= k < |b| - 1 ensures Full(b[k]) { assert Full(p[|a| + k]); }
    }
  }

  /** At least one buffer; every buffer but the last has a positive length divisible by 512; the last
      is empty or its length is not divisible by 512. */
  predicate CleanShape(writes: seq<seq<byte>>) {
    && writes != []
    && (forall k :: 0 <= k < |writes| - 1 ==> |writes[k]| > 0 && |writes[k]| % BLOCK_SIZE == 0)
    && (|writes[|writes| - 1]| == 0 || |writes[|writes| - 1]| % BLOCK_SIZE != 0)
  }

  lemma {:induction false} ShapeExact(writes: seq<seq<byte>>)
    ensures WellEnded(Payloads(writes)) <==> CleanShape(writes)
    ensures Payloads(writes) == [] <==> writes == []
  {
    if writes != [] {
      var rest := writes[1..];
      ShapeExact(rest);
      ChunksShape(writes[0]);
      AppendShape(Chunks(writes[0]), Payloads(rest));
      if rest == [] {
        assert Chunks(writes[0]) + [] == Chunks(writes[0]);
      } else {
        CleanTail(writes);
      }
    }
  }

  lemma CleanTail(writes: seq<seq<byte>>)
    requires |writes| > 1
    ensures CleanShape(writes) <==>
              |writes[0]| > 0 && |writes[0]| % BLOCK_SIZE == 0 && CleanShape(writes[1..])
  {
    var rest := writes[1..];
    forall k | 0 <= k < |rest|
      ensures rest[k] == writes[k + 1]
    {
    }
    if CleanShape(writes) {
      forall k | 0 <= k < |rest| - 1
        ensures |rest[k]| > 0 && |rest[k]| % BLOCK_SIZE == 0
      {
        assert |writes[k + 1]| > 0 && |writes[k + 1]| % BLOCK_SIZE == 0;
      }
    }
    if |writes[0]| > 0 && |writes[0]| % BLOCK_SIZE == 0 && CleanShape(rest) {
      forall k | 0 <= k < |writes| - 1
        ensures |writes[k]| > 0 && |writes[k]| % BLOCK_SIZE == 0
      {
        assert k > 0 ==> writes[k] == rest[k - 1];
      }
    }
  }

  /** The handler's payloads, buffer by buffer, are those of the lock-step client for the whole file
      exactly for clean shapes. */
  lemma SameAsLockStep(writes: seq<seq<byte>>)
    ensures Payloads(writes) == FileChunks(Flatten(writes)) <==> CleanShape(writes)
  {
    ShapeExact(writes);
    FlattenPayloads(writes);
    FileChunksEnd(Flatten(writes));
    if CleanShape(writes) {
      WellEndedUnique(Payloads(writes));
    }
  }
}

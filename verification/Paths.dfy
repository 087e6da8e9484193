/** The names clients give files: what do_find_output skips of "device://address/name". */
module Paths {
  import opened Bytes

  const COLON: byte := 58
  const SLASH: byte := 47

  /** Where the rest of a name after its last colon starts; 0 if there is none. */
  function AfterColon(name: seq<byte>, k: nat): (r: nat)
    requires k <= |name|
    ensures r <= k && COLON !in name[r..k] && (r > 0 ==> name[r - 1] == COLON)
  {
    if k == 0 || name[k - 1] == COLON then k else AfterColon(name, k - 1)
  }

  /** The first slash of a path from there on; its length if there is none. */
  function NextSlash(path: seq<byte>, from: nat): (r: nat)
    requires from <= |path|
    ensures from <= r <= |path| && SLASH !in path[from..r] && (r < |path| ==> path[r] == SLASH)
    decreases |path| - from
  {
    if from == |path| || path[from] == SLASH then from else NextSlash(path, from + 1)
  }

  /** The name of the file: what follows the first slash that comes two characters or more behind the last
      colon. Nothing is claimed about paths without these; the code then goes on from a null pointer. */
  function NamePart(path: CString): CString {
    var colon := AfterColon(path, |path|);
    if colon == 0 || colon + 2 > |path| then []
    else
      var slash := NextSlash(path, colon + 2);
      if slash == |path| then [] else path[slash + 1..]
  }

  /** The name of "device:..address/name", whatever the device and the two characters, if the address has no
      slash and no colon follows. */
  lemma NameBehind(device: CString, two: CString, address: CString, name: CString)
    requires |two| == 2 && 47 !in address && 58 !in two && 58 !in address && 58 !in name
    ensures NamePart(device + [58] + two + address + [47] + name) == name
  {
    var path := device + [COLON] + two + address + [SLASH] + name;
    var at := |device| + 1;
    var r := AfterColon(path, |path|);
    assert path[at - 1] == COLON;
    assert path[at..] == two + address + [SLASH] + name;
    assert r == at;
    var s := NextSlash(path, at + 2);
    var slash := at + 2 + |address|;
    assert path[slash] == SLASH && path[at + 2..slash] == address;
    assert s == slash;
    assert path[slash + 1..] == name;
  }

  /** strrchr: the place behind the last colon, or 0. */
  method FindColon(path: seq<byte>) returns (at: nat)
    ensures at == AfterColon(path, |path|)
  {
    at := |path|;
    while at > 0 && path[at - 1] != COLON
      invariant 0 <= at <= |path| && AfterColon(path, |path|) == AfterColon(path, at)
    {
      at := at - 1;
    }
  }

  /** strchr: the first slash from there on, or the end. */
  method FindSlash(path: seq<byte>, from: nat) returns (at: nat)
    requires from <= |path|
    ensures at == NextSlash(path, from)
  {
    at := from;
    while at < |path| && path[at] != SLASH
      invariant from <= at <= |path| && NextSlash(path, from) == NextSlash(path, at)
    {
      at := at + 1;
    }
  }

  /** What do_find_output skips. */
  method SkipPrefix(path: CString) returns (name: CString)
    ensures name == NamePart(path)
  {
    var colon := FindColon(path);
    if colon == 0 || colon + 2 > |path| {
      return [];
    }
    var slash := FindSlash(path, colon + 2);
    if slash == |path| {
      return [];
    }
    name := path[slash + 1..];
  }
}

/** The upload payloads and profile-type predicates of internal/session. */
module Session {
  import opened Bytes

  datatype Option<T> = None | Some(value: T)

  /** Single.Bytes: the payload is its own byte slice. */
  function SingleBytes(s: seq<byte>): (r: seq<byte>)
    ensures |r| == |s| && forall i :: 0 <= i < |s| ==> r[i] == s[i]
  {
    s
  }

  /** Single.BytesWithLength: eight bytes holding uint64(len(s)) big-endian,
      then the bytes of s. */
  function BytesWithLength(s: seq<byte>): (r: seq<byte>)
    ensures |r| == |s| + 8
    ensures r[8..] == s
    ensures |s| < Pow256(8) ==> FromBigEndian(r[..8]) == |s|
  {
    var r := BigEndian(|s|, 8) + s;
    assert r[..8] == BigEndian(|s|, 8);
    if |s| < Pow256(8) then FromBigEndianInverse(|s|, 8); r else r
  }

  /** Double.Bytes: both parts, each with its length prefix, prev first. */
  function DoubleBytes(prev: seq<byte>, current: seq<byte>): (r: seq<byte>)
    ensures |r| == |prev| + |current| + 16
    ensures r[..|prev| + 8] == BytesWithLength(prev)
    ensures r[|prev| + 8..] == BytesWithLength(current)
  {
    var a := BytesWithLength(prev);
    a + BytesWithLength(current)
  }

  /** The reading side of the framing: the first length-prefixed part of b and
      what follows it, or None when b is too short for its own prefix. */
  function SplitFirst(b: seq<byte>): (r: Option<(seq<byte>, seq<byte>)>)
    ensures r.Some? ==> b == BytesWithLength(r.value.0) + r.value.1
  {
    if |b| < 8 then None
    else
      var n := FromBigEndian(b[..8]);
      if |b| < 8 + n then None
      else
        var part, rest := b[8..8 + n], b[8 + n..];
        BigEndianInverse(b[..8]);
        assert BytesWithLength(part) == b[..8 + n];
        Some((part, rest))
  }

  /** A single framed payload reads back as itself with nothing after it. */
  lemma SplitSingle(s: seq<byte>)
    requires |s| < Pow256(8)
    ensures SplitFirst(BytesWithLength(s)) == Some((s, []))
  {
    var b := BytesWithLength(s);
    assert b[8..8 + |s|] == s && b[8 + |s|..] == [];
  }

  /** Splitting a Double payload on its first length prefix recovers prev, and
      the rest is the framed current part, which splits back to current. */
  lemma {:induction false} SplitDouble(prev: seq<byte>, current: seq<byte>)
    requires |prev| < Pow256(8) && |current| < Pow256(8)
    ensures SplitFirst(DoubleBytes(prev, current)) == Some((prev, BytesWithLength(current)))
    ensures SplitFirst(BytesWithLength(current)) == Some((current, []))
  {
    var d := DoubleBytes(prev, current);
    var n := |prev|;
    assert d[..8] == BytesWithLength(prev)[..8];
    assert d[8..8 + n] == prev;
    SplitSingle(current);
  }

  /** copyBuf: a newly allocated slice with the same length and contents. */
  method CopyBuf(b: array<byte>) returns (r: array<byte>)
    ensures fresh(r)
    ensures r[..] == b[..]
  {
    r := new byte[b.Length];
    var i := 0;
    while i < b.Length
      invariant 0 <= i <= b.Length
      invariant r[..i] == b[..i]
    {
      r[i] := b[i];
      i := i + 1;
    }
  }

  const ProfileCPU: string := "cpu"
  const ProfileInuseObjects: string := "inuse_objects"
  const ProfileAllocObjects: string := "alloc_objects"
  const ProfileInuseSpace: string := "inuse_space"
  const ProfileAllocSpace: string := "alloc_space"

  predicate IsMemType(t: string)
  {
    t == ProfileInuseObjects || t == ProfileAllocObjects || t == ProfileInuseSpace || t == ProfileAllocSpace
  }

  /** isCPUEnabled: a search for ProfileCPU with an early return. */
  method IsCPUEnabled(profileTypes: seq<string>) returns (enabled: bool)
    ensures enabled <==> ProfileCPU in profileTypes
  {
    for i := 0 to |profileTypes|
      invariant ProfileCPU !in profileTypes[..i]
    {
      if profileTypes[i] == ProfileCPU {
        return true;
      }
    }
    assert profileTypes[..|profileTypes|] == profileTypes;
    return false;
  }

  /** isMemEnabled: a search for any of the four heap profile types. */
  method IsMemEnabled(profileTypes: seq<string>) returns (enabled: bool)
    ensures enabled <==> exists i :: 0 <= i < |profileTypes| && IsMemType(profileTypes[i])
  {
    for i := 0 to |profileTypes|
      invariant forall j :: 0 <= j < i ==> !IsMemType(profileTypes[j])
    {
      if IsMemType(profileTypes[i]) {
        return true;
      }
    }
    return false;
  }
}

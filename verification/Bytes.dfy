/** Bytes and byte ranges. */
module Bytes {
  import opened Numbers

  newtype byte = x: int | 0 <= x < 256

  /** How many bytes of a file one segment carries, in both XRootD plugins. */
  const MAX_PAYLOAD: nat := 6144

  /** What a positioned read of `len` bytes at `offset` gets from a file. */
  function Slice(file: seq<byte>, offset: nat, len: nat): (s: seq<byte>)
    ensures |s| == if offset <= |file| then Min(len, |file| - offset) else 0
    ensures forall k :: 0 <= k < |s| ==> s[k] == file[offset + k]
  {
    if offset <= |file| then file[offset..offset + Min(len, |file| - offset)] else []
  }
}

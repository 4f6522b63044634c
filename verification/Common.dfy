/** Definitions shared by every component model. */
module Common {
  /** A pointer that may be null, or a value that may be absent. */
  datatype Option<+T> = None | Some(value: T)

  /** The buckets of the buffer cache (bio.c:26). */
  const NBUCKETS: nat := 13

  /** A sequence with b written at offset o. */
  function Patch<T>(s: seq<T>, o: nat, b: seq<T>): (r: seq<T>)
    requires o + |b| <= |s|
    ensures |r| == |s| && forall i: nat :: i < |s| ==> r[i] == if o <= i < o + |b| then b[i - o] else s[i]
  {
    s[..o] + b + s[o + |b|..]
  }
}

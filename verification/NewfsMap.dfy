/**
 The data bitmap of newfs and what newfs_alloc_dentry does with it (newfs.c): a dentry is always
 put into the list, but counted only when the call also finds a data bit.
 */
module NewfsMap {
  import opened BlockDevice

  /** sizeof(struct newfs_dentry), with 8-byte pointers. */
  const DENTRY_MEM: nat := 176

  /** A directory's list in memory, first dentry first, and its counters. */
  datatype Listing<T> = Listing(entries: seq<T>, dirCnt: nat, size: nat)

  /** The first clear bit from i on, or the length. */
  function FirstZero(bits: seq<bool>, i: nat): (f: nat)
    requires i <= |bits|
    ensures i <= f <= |bits| && (f < |bits| ==> !bits[f]) && forall k: nat :: i <= k < f ==> bits[k]
    decreases |bits| - i
  {
    if i == |bits| || !bits[i] then i else FirstZero(bits, i + 1)
  }

  function Zeros(bits: seq<bool>): nat {
    if |bits| == 0 then 0 else Zeros(bits[..|bits| - 1]) + if bits[|bits| - 1] then 0 else 1
  }

  /** The map after a call, and whether the call counts its dentry. */
  function Taken(bits: seq<bool>): seq<bool> {
    var f := FirstZero(bits, 0);
    if f < |bits| then bits[f := true] else bits
  }

  predicate Counts(bits: seq<bool>, maxData: nat) {
    FirstZero(bits, 0) < |bits| && FirstZero(bits, 0) != maxData
  }

  /** The map after n calls, and how many of them have counted. */
  function TakenAfter(bits: seq<bool>, n: nat): (r: seq<bool>)
    ensures |r| == |bits|
  {
    if n == 0 then bits else Taken(TakenAfter(bits, n - 1))
  }

  function Counted(bits: seq<bool>, maxData: nat, n: nat): (c: nat)
    ensures c <= n
  {
    if n == 0 then 0 else Counted(bits, maxData, n - 1) + if Counts(TakenAfter(bits, n - 1), maxData) then 1 else 0
  }

  // ---------------------------------------------------------------------------------------
  // When all are counted
  // ---------------------------------------------------------------------------------------

  lemma {:induction false} ZerosUpdate(bits: seq<bool>, f: nat)
    requires f < |bits| && !bits[f]
    ensures Zeros(bits[f := true]) + 1 == Zeros(bits)
  {
    var n := |bits| - 1;
    if f == n {
      assert bits[f := true][..n] == bits[..n];
    } else {
      ZerosUpdate(bits[..n], f);
      assert bits[f := true][..n] == bits[..n][f := true];
    }
  }

  lemma {:induction false} NoZeros(bits: seq<bool>)
    ensures Zeros(bits) == 0 <==> forall k: nat :: k < |bits| ==> bits[k]
  {
    if |bits| > 0 {
      var n := |bits| - 1;
      NoZeros(bits[..n]);
      assert forall k: nat :: k < n ==> bits[..n][k] == bits[k];
    }
  }

  /** The calls that count before one does not: the clear bits below maxData if that bit is clear,
      else all clear bits. */
  function Supply(bits: seq<bool>, maxData: nat): nat {
    if maxData < |bits| && !bits[maxData] then Zeros(bits[..maxData]) else Zeros(bits)
  }

  lemma CountsIff(bits: seq<bool>, maxData: nat)
    ensures Counts(bits, maxData) <==> Supply(bits, maxData) > 0
    ensures Counts(bits, maxData) ==> Supply(Taken(bits), maxData) + 1 == Supply(bits, maxData)
  {
    var f := FirstZero(bits, 0);
    NoZeros(bits);
    if maxData < |bits| && !bits[maxData] {
      NoZeros(bits[..maxData]);
      assert forall k: nat :: k < maxData ==> bits[..maxData][k] == bits[k];
      if f < maxData {
        ZerosUpdate(bits[..maxData], f);
        assert Taken(bits)[..maxData] == bits[..maxData][f := true];
      }
    } else if f < |bits| {
      ZerosUpdate(bits, f);
    }
  }

  lemma {:induction false} SupplyAfter(bits: seq<bool>, maxData: nat, n: nat)
    requires n <= Supply(bits, maxData)
    ensures Supply(TakenAfter(bits, n), maxData) + n == Supply(bits, maxData) && Counted(bits, maxData, n) == n
  {
    if n > 0 {
      SupplyAfter(bits, maxData, n - 1);
      CountsIff(TakenAfter(bits, n - 1), maxData);
    }
  }

  lemma {:induction false} CountedGrows(bits: seq<bool>, maxData: nat, n: nat, k: nat)
    requires n <= k && Counted(bits, maxData, n) < n
    ensures Counted(bits, maxData, k) < k
  {
    if n < k {
      CountedGrows(bits, maxData, n, k - 1);
    }
  }

  /** n dentries are all counted iff that many calls count. */
  lemma AllCountedIff(bits: seq<bool>, maxData: nat, n: nat)
    ensures Counted(bits, maxData, n) == n <==> n <= Supply(bits, maxData)
  {
    var s := Supply(bits, maxData);
    if n <= s {
      SupplyAfter(bits, maxData, n);
    } else {
      SupplyAfter(bits, maxData, s);
      CountsIff(TakenAfter(bits, s), maxData);
      CountedGrows(bits, maxData, s + 1, n);
    }
  }

  // ---------------------------------------------------------------------------------------
  // newfs_alloc_dentry
  // ---------------------------------------------------------------------------------------

  /** NEWFS_ROUND_UP(size + sizeof(struct newfs_dentry), blk) as the preprocessor expands it: the
      argument has no parentheses. */
  function RoundUpOfSum(size: nat, blk: nat): nat
    requires blk > 0
  {
    if size + DENTRY_MEM % blk == 0 then size + DENTRY_MEM else (size + DENTRY_MEM / blk + 1) * blk
  }

  /** So the test of newfs.c:162 holds at every call. */
  lemma TestIsTrue(size: nat, blk: nat)
    requires blk >= BLOCK_SIZE
    ensures RoundUp(size, blk) != RoundUpOfSum(size, blk)
  {
    assert DENTRY_MEM % blk == DENTRY_MEM && DENTRY_MEM / blk == 0;
    assert (size + 1) * blk == size * blk + blk;
    assert size * blk >= size;
  }

  class DataMap {
    var bits: seq<bool>
    const maxData: nat

    constructor (bits: seq<bool>, maxData: nat)
      ensures this.bits == bits && this.maxData == maxData
    {
      this.bits, this.maxData := bits, maxData;
    }

    /** The scan of newfs.c:164-178, byte by byte and bit by bit. */
    method TakeBit() returns (found: bool, cursor: nat)
      requires |bits| % 8 == 0
      modifies this
      ensures bits == Taken(old(bits)) && cursor == FirstZero(old(bits), 0) && (found <==> cursor < |bits|)
    {
      var byte := 0;
      found, cursor := false, 0;
      while byte < |bits| / 8
        invariant 0 <= byte <= |bits| / 8 && !found && cursor == 8 * byte && bits == old(bits)
        invariant FirstZero(bits, 0) == FirstZero(bits, cursor)
      {
        var bit := 0;
        while bit < 8
          invariant 0 <= bit <= 8 && cursor == 8 * byte + bit && cursor <= |bits| && bits == old(bits)
          invariant FirstZero(bits, 0) == FirstZero(bits, cursor)
        {
          if !bits[8 * byte + bit] {
            bits := bits[8 * byte + bit := true];
            return true, cursor;
          }
          cursor := cursor + 1;
          bit := bit + 1;
        }
        byte := byte + 1;
      }
    }

    /** newfs_alloc_dentry (newfs.c:151-186): the dentry comes first in the list; it is counted iff
        the map has a clear bit whose number is not maxData. */
    method AllocDentry<T>(d: Listing<T>, e: T, blk: nat) returns (r: Listing<T>, ok: bool)
      requires |bits| % 8 == 0 && blk >= BLOCK_SIZE
      modifies this
      ensures bits == Taken(old(bits)) && (ok <==> Counts(old(bits), maxData))
      ensures r.entries == [e] + d.entries
      ensures ok ==> r.dirCnt == d.dirCnt + 1 && r.size == d.size + DENTRY_MEM
      ensures !ok ==> r.dirCnt == d.dirCnt && r.size == d.size
    {
      r := d.(entries := if |d.entries| == 0 then [e] else [e] + d.entries);
      var found, cursor := false, 0;
      TestIsTrue(d.size, blk);
      if RoundUp(d.size, blk) != RoundUpOfSum(d.size, blk) {
        found, cursor := TakeBit();
      }
      if !found || cursor == maxData {
        return r, false;
      }
      r := r.(dirCnt := r.dirCnt + 1, size := r.size + DENTRY_MEM);
      ok := true;
    }
  }
}

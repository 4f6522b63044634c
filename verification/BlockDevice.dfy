/**
 Unaligned reads and writes over a block device (newfs.c), and the rounding macros of types.h.
 */
module BlockDevice {
  import opened Common

  type Byte = b: int | 0 <= b < 256

  const BLOCK_SIZE: nat := 1024

  /** x is a whole number of n's. */
  predicate Multiple(x: nat, n: nat)
    requires n > 0
  {
    x == 0 || (x >= n && Multiple(x - n, n))
  }

  lemma {:induction false} MultipleTimes(k: nat, n: nat)
    requires n > 0
    ensures Multiple(k * n, n)
  {
    if k > 0 {
      MultipleTimes(k - 1, n);
      assert k * n == (k - 1) * n + n;
    }
  }

  lemma {:induction false} MultipleSum(x: nat, y: nat, n: nat)
    requires n > 0 && Multiple(x, n) && Multiple(y, n)
    ensures Multiple(x + y, n)
  {
    if x > 0 {
      MultipleSum(x - n, y, n);
    }
  }

  lemma {:induction false} MultipleTrans(x: nat, n: nat, i: nat)
    requires n > 0 && i > 0 && Multiple(x, n) && Multiple(n, i)
    ensures Multiple(x, i)
  {
    if x > 0 {
      MultipleTrans(x - n, n, i);
      MultipleSum(n, x - n, i);
    }
  }

  /** Multiples of n less than n apart are the same. */
  lemma {:induction false} MultipleOnce(x: nat, y: nat, n: nat)
    requires n > 0 && Multiple(x, n) && Multiple(y, n) && x < y + n && y < x + n
    ensures x == y
  {
    if x > 0 && y > 0 {
      MultipleOnce(x - n, y - n, n);
    }
  }

  /** The least multiple of n that is not below x, and the greatest that is not above it. */
  function Ceil(x: nat, n: nat): (r: nat)
    requires n > 0
    ensures x <= r < x + n && Multiple(r, n)
  {
    if x == 0 then 0 else if x <= n then n else n + Ceil(x - n, n)
  }

  function Floor(x: nat, n: nat): (r: nat)
    requires n > 0
    ensures r <= x < r + n && Multiple(r, n)
  {
    if x < n then 0 else n + Floor(x - n, n)
  }

  lemma Division(value: nat, round: nat)
    requires round > 0
    ensures value == value / round * round + value % round && 0 <= value / round
    ensures (value / round + 1) * round == value / round * round + round
    ensures Multiple(value / round * round, round) && Multiple((value / round + 1) * round, round)
  {
    MultipleTimes(value / round, round);
    MultipleTimes(value / round + 1, round);
  }

  /** NEWFS_ROUND_DOWN (types.h:40). */
  function RoundDown(value: nat, round: nat): (r: nat)
    requires round > 0
    ensures r == Floor(value, round)
  {
    Division(value, round);
    var r := if value % round == 0 then value else value / round * round;
    MultipleOnce(r, Floor(value, round), round);
    r
  }

  /** NEWFS_ROUND_UP (types.h:41), for an argument that is one term. */
  function RoundUp(value: nat, round: nat): (r: nat)
    requires round > 0
    ensures r == Ceil(value, round)
  {
    Division(value, round);
    var r := if value % round == 0 then value else (value / round + 1) * round;
    MultipleOnce(r, Ceil(value, round), round);
    r
  }

  /** The logical block: the least whole number of device blocks that has BLOCK_SIZE bytes. */
  function BlockSize(io: nat): (r: nat)
    requires io > 0
    ensures BLOCK_SIZE <= r && Multiple(r, io)
  {
    Ceil(BLOCK_SIZE, io)
  }

  /** NEWFS_BLKS_SZ (types.h:44) is that. */
  lemma BlockSizeIsMacro(io: nat)
    requires io > 0
    ensures BlockSize(io) == RoundUp(BLOCK_SIZE, io)
  {
  }

  /** The aligned range that covers size bytes at offset. */
  lemma Cover(offset: nat, size: nat, n: nat)
    requires n > 0
    ensures var o := Floor(offset, n); o + Ceil(size + (offset - o), n) == Ceil(offset + size, n)
    ensures var o := Floor(offset, n); Floor(o, n) == o
    ensures var r := Ceil(offset + size, n); Ceil(r, n) == r
  {
    var o := Floor(offset, n);
    var r := Ceil(size + (offset - o), n);
    MultipleSum(o, r, n);
    MultipleOnce(o + r, Ceil(offset + size, n), n);
    MultipleOnce(Floor(o, n), o, n);
    MultipleOnce(Ceil(o + r, n), o + r, n);
  }

  /** Writing b into a part of s and putting the part back is writing b into s. */
  lemma PatchWithin<T>(s: seq<T>, o: nat, n: nat, bias: nat, b: seq<T>)
    requires o + n <= |s| && bias + |b| <= n
    ensures Patch(s, o, Patch(s[o..o + n], bias, b)) == Patch(s, o + bias, b)
  {
  }

  lemma SliceJoin<T>(s: seq<T>, a: nat, b: nat, c: nat)
    requires a <= b <= c <= |s|
    ensures s[a..b] + s[b..c] == s[a..c]
  {
    var l, r := s[a..b] + s[b..c], s[a..c];
    assert |l| == |r| && forall i: nat :: i < |r| ==> l[i] == r[i];
  }

  lemma SlicePart<T>(s: seq<T>, o: nat, n: nat, bias: nat, size: nat)
    requires o + n <= |s| && bias + size <= n
    ensures s[o..o + n][bias..bias + size] == s[o + bias..o + bias + size]
  {
    var l, r := s[o..o + n][bias..bias + size], s[o + bias..o + bias + size];
    assert |l| == |r| && forall i: nat :: i < |r| ==> l[i] == r[i];
  }

  lemma PatchMore<T>(s: seq<T>, o: nat, b: seq<T>, b': seq<T>)
    requires o + |b| + |b'| <= |s|
    ensures Patch(Patch(s, o, b), o + |b|, b') == Patch(s, o, b + b')
  {
  }

  class Device {
    const io: nat
    var disk: seq<Byte>
    var pos: nat

    constructor (io: nat, disk: seq<Byte>)
      ensures this.io == io && this.disk == disk && pos == 0
    {
      this.io, this.disk, pos := io, disk, 0;
    }

    /** ddriver_read and ddriver_write: one device block at the current position. */
    method ReadBlock() returns (b: seq<Byte>)
      requires pos + io <= |disk|
      modifies this`pos
      ensures b == disk[old(pos)..old(pos) + io] && pos == old(pos) + io
    {
      b := disk[pos..pos + io];
      pos := pos + io;
    }

    method WriteBlock(b: seq<Byte>)
      requires pos + io <= |disk| && |b| == io
      modifies this`pos, this`disk
      ensures disk == Patch(old(disk), old(pos), b) && pos == old(pos) + io
    {
      disk := Patch(disk, pos, b);
      pos := pos + io;
    }

    /** The logical blocks that hold size bytes at offset are on the disk. */
    ghost predicate Fits(offset: nat, size: nat)
      reads this
    {
      io > 0 && Ceil(offset + size, BlockSize(io)) <= |disk|
    }

    /** The first lines of both: the aligned offset, the bias and the aligned size. */
    method Align(offset: nat, size: nat) returns (offsetAligned: nat, bias: nat, sizeAligned: nat)
      requires Fits(offset, size)
      ensures offsetAligned + bias == offset && bias + size <= sizeAligned && Multiple(sizeAligned, io)
      ensures offsetAligned + sizeAligned <= |disk| && Fits(offsetAligned, sizeAligned)
    {
      BlockSizeIsMacro(io);
      var blk := RoundUp(BLOCK_SIZE, io);
      offsetAligned := RoundDown(offset, blk);
      bias := offset - offsetAligned;
      sizeAligned := RoundUp(size + bias, blk);
      Cover(offset, size, blk);
      MultipleTrans(sizeAligned, blk, io);
    }

    /** newfs_driver_read (newfs.c:63-81). */
    method DriverRead(offset: nat, size: nat) returns (out: seq<Byte>)
      requires Fits(offset, size)
      modifies this`pos
      ensures offset + size <= |disk| && out == disk[offset..offset + size]
    {
      var offsetAligned, bias, rest := Align(offset, size);
      ghost var whole := rest;
      var temp := [];
      pos := offsetAligned;
      while rest != 0
        invariant 0 <= rest && Multiple(rest, io)
        invariant |temp| + rest == whole && pos == offsetAligned + |temp|
        invariant temp == disk[offsetAligned..offsetAligned + |temp|]
        decreases rest
      {
        SliceJoin(disk, offsetAligned, pos, pos + io);
        var b := ReadBlock();
        temp := temp + b;
        rest := rest - io;
      }
      SlicePart(disk, offsetAligned, whole, bias, size);
      out := temp[bias..bias + size];
    }

    /** newfs_driver_write (newfs.c:90-111): exactly the bytes from offset on change. */
    method DriverWrite(offset: nat, content: seq<Byte>)
      requires Fits(offset, |content|)
      modifies this`pos, this`disk
      ensures offset + |content| <= |old(disk)| && disk == Patch(old(disk), offset, content)
    {
      var offsetAligned, bias, rest := Align(offset, |content|);
      var temp := DriverRead(offsetAligned, rest);
      PatchWithin(disk, offsetAligned, rest, bias, content);
      temp := Patch(temp, bias, content);
      pos := offsetAligned;
      WriteBlocks(temp);
    }

    /** Its loop: whole device blocks from the current position on. */
    method WriteBlocks(temp: seq<Byte>)
      requires io > 0 && Multiple(|temp|, io) && pos + |temp| <= |disk|
      modifies this`pos, this`disk
      ensures disk == Patch(old(disk), old(pos), temp)
    {
      var cur, rest := 0, |temp|;
      assert Patch(disk, pos, temp[..0]) == disk;
      while rest != 0
        invariant 0 <= rest && Multiple(rest, io)
        invariant 0 <= cur && cur + rest == |temp| && pos == old(pos) + cur && |disk| == |old(disk)|
        invariant disk == Patch(old(disk), old(pos), temp[..cur])
        decreases rest
      {
        PatchMore(old(disk), old(pos), temp[..cur], temp[cur..cur + io]);
        assert temp[..cur] + temp[cur..cur + io] == temp[..cur + io];
        WriteBlock(temp[cur..cur + io]);
        cur, rest := cur + io, rest - io;
      }
      assert temp[..cur] == temp;
    }
  }
}

/**
 The directory tree of newfs on disk (newfs.c, types.h): records in fixed regions, written by
 newfs_sync_inode and read back by newfs_read_inode.
 */
module Newfs {
  import opened Common
  import opened BlockDevice
  import opened NewfsMap

  // ---------------------------------------------------------------------------------------
  // Layout
  // ---------------------------------------------------------------------------------------

  const INODE_OFS: nat := 3072
  const INODE_SIZE: nat := 32
  const INODE_NUM: nat := 3968
  const DATA_OFS: nat := 130048
  const AREA: nat := 8192
  const NAME: nat := 128
  const DENTRY_SIZE: nat := 140
  const DATA_PER_FILE: nat := 8

  function InoOfs(ino: nat): nat {
    INODE_OFS + ino * INODE_SIZE
  }

  function DaOfs(ino: nat): nat {
    DATA_OFS + ino * AREA
  }

  /** Byte a lies in the regions of inode ino. */
  predicate InRegion(a: nat, ino: nat) {
    InoOfs(ino) <= a < InoOfs(ino) + INODE_SIZE || DaOfs(ino) <= a < DaOfs(ino) + AREA
  }

  /** The first three blocks, with the superblock and the two bitmaps, lie in no inode's region; and the
      records end where the data begins. */
  lemma RegionsAre(a: nat, ino: nat)
    ensures InRegion(a, ino) <==> 3072 + 32 * ino <= a < 3072 + 32 * (ino + 1) || 130048 + 8192 * ino <= a < 130048 + 8192 * (ino + 1)
    ensures InRegion(a, ino) ==> a >= 3072
    ensures ino < 3968 && InRegion(a, ino) ==> (a < 130048 <==> a / 32 == 96 + ino && a < 130048)
  {
  }

  /** Regions of different inodes do not meet. */
  lemma RegionsApart(a: nat, i: nat, j: nat)
    requires i < INODE_NUM && j < INODE_NUM && InRegion(a, i) && InRegion(a, j)
    ensures i == j
  {
  }

  // ---------------------------------------------------------------------------------------
  // Records
  // ---------------------------------------------------------------------------------------

  type Bytes = seq<Byte>

  predicate Int32(x: int) {
    -0x8000_0000 <= x < 0x8000_0000
  }

  /** A C int in memory, least significant byte first. */
  function Enc32(x: int): (b: Bytes)
    ensures |b| == 4
  {
    var u := x % 0x1_0000_0000;
    [u % 256, u / 256 % 256, u / 0x1_0000 % 256, u / 0x100_0000]
  }

  function Dec32(b: Bytes): (x: int)
    requires |b| == 4
    ensures Int32(x)
  {
    var b0: int, b1: int, b2: int, b3: int := b[0], b[1], b[2], b[3];
    var u := b0 + 256 * b1 + 0x1_0000 * b2 + 0x100_0000 * b3;
    if u < 0x8000_0000 then u else u - 0x1_0000_0000
  }

  lemma IntRoundTrip(x: int)
    requires Int32(x)
    ensures Dec32(Enc32(x)) == x
  {
    var u := x % 0x1_0000_0000;
    var q1 := u / 256;
    var q2 := q1 / 256;
    assert u / 0x1_0000 == q2 && u / 0x100_0000 == q2 / 256;
    assert u == 256 * q1 + u % 256 && q1 == 256 * q2 + q1 % 256 && q2 == 256 * (q2 / 256) + q2 % 256;
  }

  datatype Ftype = FILE | DIR | SYM_LINK

  function TypeCode(f: Ftype): int {
    match f case FILE => 0 case DIR => 1 case SYM_LINK => 2
  }

  /** The type that an int stands for: the enum counts from 0 (types.h:57-61). */
  function FtypeOf(code: int): Option<Ftype> {
    if code == 0 then Some(FILE) else if code == 1 then Some(DIR) else if code == 2 then Some(SYM_LINK) else None
  }

  /** struct newfs_inode_d, less the fields that nothing reads. */
  datatype InodeD = InodeD(ino: int, size: int, ftype: int, dirCnt: int)

  /** struct newfs_dentry_d, less `valid`. */
  datatype DentryD = DentryD(name: Bytes, ftype: int, ino: int)

  /** sizeof is 32: link, the padding and the pointer are whatever the stack held. */
  function EncInode(d: InodeD, link: Bytes, rest: Bytes): (b: Bytes)
    requires |link| == 4 && |rest| == 12
    ensures |b| == INODE_SIZE
  {
    Enc32(d.ino) + Enc32(d.size) + link + Enc32(d.ftype) + Enc32(d.dirCnt) + rest
  }

  function DecInode(b: Bytes): InodeD
    requires |b| == INODE_SIZE
  {
    InodeD(Dec32(b[0..4]), Dec32(b[4..8]), Dec32(b[12..16]), Dec32(b[16..20]))
  }

  lemma InodeRoundTrip(d: InodeD, link: Bytes, rest: Bytes)
    requires |link| == 4 && |rest| == 12 && Int32(d.ino) && Int32(d.size) && Int32(d.ftype) && Int32(d.dirCnt)
    ensures DecInode(EncInode(d, link, rest)) == d
  {
    var b := EncInode(d, link, rest);
    assert b[0..4] == Enc32(d.ino) && b[4..8] == Enc32(d.size) && b[12..16] == Enc32(d.ftype) && b[16..20] == Enc32(d.dirCnt);
    IntRoundTrip(d.ino);
    IntRoundTrip(d.size);
    IntRoundTrip(d.ftype);
    IntRoundTrip(d.dirCnt);
  }

  function EncDentry(d: DentryD, valid: Bytes): (b: Bytes)
    requires |d.name| == NAME && |valid| == 4
    ensures |b| == DENTRY_SIZE
  {
    d.name + Enc32(d.ftype) + Enc32(d.ino) + valid
  }

  function DecDentry(b: Bytes): DentryD
    requires |b| == DENTRY_SIZE
  {
    DentryD(b[0..128], Dec32(b[128..132]), Dec32(b[132..136]))
  }

  lemma DentryRoundTrip(d: DentryD, valid: Bytes)
    requires |d.name| == NAME && |valid| == 4 && Int32(d.ftype) && Int32(d.ino)
    ensures DecDentry(EncDentry(d, valid)) == d
  {
    var b := EncDentry(d, valid);
    assert b[0..128] == d.name && b[128..132] == Enc32(d.ftype) && b[132..136] == Enc32(d.ino);
    IntRoundTrip(d.ftype);
    IntRoundTrip(d.ino);
  }

  // ---------------------------------------------------------------------------------------
  // Trees
  // ---------------------------------------------------------------------------------------

  /** An inode in memory, with the part of the tree below it that is in memory. */
  datatype Node =
    | File(ino: nat, size: nat, data: Bytes)
    | Dir(ino: nat, size: nat, dirCnt: nat, kids: seq<Dentry>)
    | Link(ino: nat, size: nat)

  datatype Dentry = Dentry(name: Bytes, ftype: Ftype, ino: int, inode: Option<Node>)

  function TypeOf(n: Node): Ftype {
    match n case File(_, _, _) => FILE case Dir(_, _, _, _) => DIR case Link(_, _) => SYM_LINK
  }

  /** A name as new_dentry makes it: text, then zeros. */
  ghost predicate Proper(name: Bytes) {
    |name| == NAME && exists k: nat :: TextThenZeros(name, k)
  }

  predicate TextThenZeros(name: Bytes, k: nat) {
    k < |name| && (forall i: nat :: i < |name| ==> (name[i] == 0 <==> k <= i))
  }

  function Record(n: Node): InodeD {
    InodeD(n.ino, n.size, TypeCode(TypeOf(n)), if n.Dir? then n.dirCnt else 0)
  }

  function RecordOf(d: Dentry): DentryD {
    DentryD(d.name, TypeCode(d.ftype), d.ino)
  }

  /** The inodes of a tree. */
  ghost function Inos(n: Node): set<nat>
    decreases n
  {
    {n.ino} + if n.Dir? then KidInos(n.kids) else {}
  }

  ghost function KidInos(kids: seq<Dentry>): set<nat>
    decreases kids
  {
    if |kids| == 0 then {}
    else
      var i := |kids| - 1;
      KidInos(kids[..i]) + if kids[i].inode.Some? then Inos(kids[i].inode.value) else {}
  }

  /** No inode number occurs twice in a tree. */
  ghost predicate Distinct(n: Node)
    decreases n
  {
    n.Dir? ==> n.ino !in KidInos(n.kids) && KidsDistinct(n.kids)
  }

  ghost predicate KidsDistinct(kids: seq<Dentry>)
    decreases kids
  {
    |kids| > 0 ==>
      var i := |kids| - 1;
      && KidsDistinct(kids[..i])
      && (kids[i].inode.Some? ==> Distinct(kids[i].inode.value) && Inos(kids[i].inode.value) !! KidInos(kids[..i]))
  }

  /** The tree's regions are on a disk of len bytes, its directories and files fit their areas,
      and dentries agree with the inodes they lead to. */
  ghost predicate Fit(n: Node, io: nat, len: nat)
    requires io > 0
    decreases n
  {
    && n.ino < INODE_NUM && Int32(n.size) && Ceil(DaOfs(n.ino) + DATA_PER_FILE * BlockSize(io), BlockSize(io)) <= len
    && (n.File? ==> |n.data| == DATA_PER_FILE * BlockSize(io) && Ceil(n.size, BlockSize(io)) <= AREA)
    && (n.Dir? ==> n.dirCnt <= |n.kids| && DENTRY_SIZE * |n.kids| <= AREA && KidsFit(n.kids, io, len))
  }

  ghost predicate KidsFit(kids: seq<Dentry>, io: nat, len: nat)
    requires io > 0
    decreases kids
  {
    |kids| > 0 ==>
      var i := |kids| - 1;
      && KidsFit(kids[..i], io, len) && Proper(kids[i].name) && Int32(kids[i].ino)
      && (kids[i].inode.Some? ==>
            var n := kids[i].inode.value; n.ino == kids[i].ino && TypeOf(n) == kids[i].ftype && Fit(n, io, len))
  }

  lemma {:induction false} KidFits(kids: seq<Dentry>, io: nat, len: nat, i: nat)
    requires io > 0 && KidsFit(kids, io, len) && i < |kids|
    ensures Proper(kids[i].name) && Int32(kids[i].ino)
    ensures kids[i].inode.Some? ==> kids[i].inode.value.ino == kids[i].ino && Fit(kids[i].inode.value, io, len)
  {
    if i < |kids| - 1 {
      KidFits(kids[..|kids| - 1], io, len, i);
    }
  }

  lemma {:induction false} KidsPrefix(kids: seq<Dentry>, i: nat)
    requires KidsDistinct(kids) && i <= |kids|
    ensures KidsDistinct(kids[..i]) && KidInos(kids[..i]) <= KidInos(kids)
  {
    if i < |kids| {
      assert kids[..|kids| - 1][..i] == kids[..i];
      KidsPrefix(kids[..|kids| - 1], i);
    } else {
      assert kids[..i] == kids;
    }
  }

  /** One more kid. */
  lemma KidsStep(kids: seq<Dentry>, i: nat)
    requires i < |kids|
    ensures kids[..i + 1][..i] == kids[..i] && kids[..i + 1][i] == kids[i]
    ensures KidInos(kids[..i + 1]) == KidInos(kids[..i]) + if kids[i].inode.Some? then Inos(kids[i].inode.value) else {}
  {
    assert kids[..i + 1][..i] == kids[..i];
  }

  lemma {:induction false} InosInRange(n: Node, io: nat, len: nat)
    requires io > 0 && Fit(n, io, len)
    ensures forall i: nat :: i in Inos(n) ==> i < INODE_NUM
    decreases n
  {
    if n.Dir? {
      KidInosInRange(n.kids, io, len);
    }
  }

  lemma {:induction false} KidInosInRange(kids: seq<Dentry>, io: nat, len: nat)
    requires io > 0 && KidsFit(kids, io, len)
    ensures forall i: nat :: i in KidInos(kids) ==> i < INODE_NUM
    decreases kids
  {
    if |kids| > 0 {
      var i := |kids| - 1;
      KidInosInRange(kids[..i], io, len);
      if kids[i].inode.Some? {
        InosInRange(kids[i].inode.value, io, len);
      }
    }
  }

  // ---------------------------------------------------------------------------------------
  // Trees on disk
  // ---------------------------------------------------------------------------------------

  predicate Touches(a: nat, s: set<nat>) {
    exists i: nat :: i in s && InRegion(a, i)
  }

  /** From d to d' only the regions of inodes s changed. */
  ghost predicate Untouched(d: Bytes, d': Bytes, s: set<nat>) {
    |d'| == |d| && forall a: nat :: a < |d| && !Touches(a, s) ==> d'[a] == d[a]
  }

  lemma UntouchedMore(d: Bytes, d': Bytes, d'': Bytes, s: set<nat>, s': set<nat>)
    requires Untouched(d, d', s) && Untouched(d', d'', s')
    ensures Untouched(d, d'', s + s')
  {
    forall a: nat | a < |d| && !Touches(a, s + s') ensures d''[a] == d[a] {
      assert !Touches(a, s) && !Touches(a, s');
    }
  }

  /** A sync leaves the superblock and the bitmaps alone. */
  lemma HeaderKept(d: Bytes, d': Bytes, s: set<nat>, a: nat)
    requires Untouched(d, d', s) && a < 3072 && a < |d|
    ensures d'[a] == d[a]
  {
    forall i: nat | i in s ensures !InRegion(a, i) {
      RegionsAre(a, i);
    }
    assert !Touches(a, s);
  }

  /** Bytes of ino's regions stay when only other inodes' regions changed. */
  lemma SliceKept(d: Bytes, d': Bytes, s: set<nat>, ino: nat, lo: nat, hi: nat)
    requires Untouched(d, d', s) && ino !in s && ino < INODE_NUM && lo <= hi <= |d|
    requires forall i: nat :: i in s ==> i < INODE_NUM
    requires forall a: nat :: lo <= a < hi ==> InRegion(a, ino)
    ensures d'[lo..hi] == d[lo..hi]
  {
    forall a: nat | lo <= a < hi ensures d'[a] == d[a] {
      if Touches(a, s) {
        var i: nat :| i in s && InRegion(a, i);
        RegionsApart(a, i, ino);
      }
    }
  }

  /** The record of n, and the first k dentries of a directory, are on the disk. */
  ghost predicate OwnStored(d: Bytes, n: Node, k: nat)
    requires n.Dir? ==> k <= |n.kids|
  {
    && InoOfs(n.ino) + INODE_SIZE <= |d| && DecInode(d[InoOfs(n.ino)..InoOfs(n.ino) + INODE_SIZE]) == Record(n)
    && (n.Dir? ==> forall j: nat :: j < k ==> KidStored(d, DaOfs(n.ino) + DENTRY_SIZE * j, n.kids[j]))
  }

  predicate KidStored(d: Bytes, at: nat, kid: Dentry) {
    at + DENTRY_SIZE <= |d| && DecDentry(d[at..at + DENTRY_SIZE]) == RecordOf(kid)
  }

  /** The bytes of a file are on the disk. */
  ghost predicate BodyStored(d: Bytes, n: Node) {
    n.File? ==> DaOfs(n.ino) + n.size <= |d| && n.size <= |n.data| && n.size <= AREA && d[DaOfs(n.ino)..DaOfs(n.ino) + n.size] == n.data[..n.size]
  }

  /** One inode with its dentries or bytes. */
  ghost predicate StoredOne(d: Bytes, n: Node) {
    OwnStored(d, n, if n.Dir? then |n.kids| else 0) && BodyStored(d, n)
  }

  /** The whole tree is on the disk. */
  ghost predicate Stored(d: Bytes, n: Node)
    decreases n
  {
    StoredOne(d, n) && (n.Dir? ==> KidsStored(d, n.kids))
  }

  ghost predicate KidsStored(d: Bytes, kids: seq<Dentry>)
    decreases kids
  {
    |kids| > 0 ==>
      var i := |kids| - 1;
      KidsStored(d, kids[..i]) && (kids[i].inode.Some? ==> Stored(d, kids[i].inode.value))
  }

  lemma OwnKept(d: Bytes, d': Bytes, n: Node, k: nat, s: set<nat>)
    requires n.Dir? ==> k <= |n.kids| && DENTRY_SIZE * |n.kids| <= AREA
    requires OwnStored(d, n, k) && Untouched(d, d', s) && n.ino !in s && n.ino < INODE_NUM
    requires forall i: nat :: i in s ==> i < INODE_NUM
    ensures OwnStored(d', n, k)
  {
    SliceKept(d, d', s, n.ino, InoOfs(n.ino), InoOfs(n.ino) + INODE_SIZE);
    if n.Dir? {
      forall j: nat | j < k ensures KidStored(d', DaOfs(n.ino) + DENTRY_SIZE * j, n.kids[j]) {
        assert KidStored(d, DaOfs(n.ino) + DENTRY_SIZE * j, n.kids[j]);
        SliceKept(d, d', s, n.ino, DaOfs(n.ino) + DENTRY_SIZE * j, DaOfs(n.ino) + DENTRY_SIZE * j + DENTRY_SIZE);
      }
    }
  }

  /** A stored tree stays when only other inodes' regions change. */
  lemma {:induction false} StoredKept(d: Bytes, d': Bytes, n: Node, s: set<nat>, io: nat, len: nat)
    requires io > 0 && Fit(n, io, len) && Stored(d, n) && Untouched(d, d', s) && Inos(n) !! s
    requires forall i: nat :: i in s ==> i < INODE_NUM
    ensures Stored(d', n)
    decreases n
  {
    assert n.ino in Inos(n);
    OwnKept(d, d', n, if n.Dir? then |n.kids| else 0, s);
    if n.Dir? {
      KidsKept(d, d', n.kids, s, io, len);
    } else if n.File? {
      SliceKept(d, d', s, n.ino, DaOfs(n.ino), DaOfs(n.ino) + n.size);
    }
  }

  lemma {:induction false} KidsKept(d: Bytes, d': Bytes, kids: seq<Dentry>, s: set<nat>, io: nat, len: nat)
    requires io > 0 && KidsFit(kids, io, len) && KidsStored(d, kids) && Untouched(d, d', s) && KidInos(kids) !! s
    requires forall i: nat :: i in s ==> i < INODE_NUM
    ensures KidsStored(d', kids)
    decreases kids
  {
    if |kids| > 0 {
      var i := |kids| - 1;
      KidsKept(d, d', kids[..i], s, io, len);
      if kids[i].inode.Some? {
        StoredKept(d, d', kids[i].inode.value, s, io, len);
      }
    }
  }

  /** Bytes written into ino's regions touch no other inode. */
  lemma PatchTouches(d: Bytes, at: nat, b: Bytes, ino: nat)
    requires at + |b| <= |d| && forall a: nat :: at <= a < at + |b| ==> InRegion(a, ino)
    ensures Untouched(d, Patch(d, at, b), {ino})
  {
    forall a: nat | a < |d| && !Touches(a, {ino}) ensures Patch(d, at, b)[a] == d[a] {
      assert ino in {ino};
    }
  }

  /** The record of n written. */
  lemma RecordWritten(d: Bytes, n: Node, link: Bytes, rest: Bytes)
    requires |link| == 4 && |rest| == 12 && n.ino < INODE_NUM && Int32(n.size) && (n.Dir? ==> Int32(n.dirCnt))
    requires InoOfs(n.ino) + INODE_SIZE <= |d|
    ensures var d' := Patch(d, InoOfs(n.ino), EncInode(Record(n), link, rest)); OwnStored(d', n, 0) && Untouched(d, d', {n.ino})
  {
    var b := EncInode(Record(n), link, rest);
    var d' := Patch(d, InoOfs(n.ino), b);
    InodeRoundTrip(Record(n), link, rest);
    assert d'[InoOfs(n.ino)..InoOfs(n.ino) + INODE_SIZE] == b;
    PatchTouches(d, InoOfs(n.ino), b, n.ino);
  }

  /** What a write leaves of a slice: the bytes written, or the bytes before. */
  lemma PatchSlice(d: Bytes, at: nat, b: Bytes)
    requires at + |b| <= |d|
    ensures Patch(d, at, b)[at..at + |b|] == b
  {
  }

  lemma PatchApart(d: Bytes, at: nat, b: Bytes, lo: nat, hi: nat)
    requires at + |b| <= |d| && lo <= hi <= |d| && (hi <= at || at + |b| <= lo)
    ensures Patch(d, at, b)[lo..hi] == d[lo..hi]
  {
  }

  /** Dentry i of directory n written. */
  lemma KidWritten(d: Bytes, n: Node, i: nat, valid: Bytes)
    requires n.Dir? && i < |n.kids| && DENTRY_SIZE * |n.kids| <= AREA && |valid| == 4 && n.ino < INODE_NUM
    requires Proper(n.kids[i].name) && Int32(n.kids[i].ino) && DaOfs(n.ino) + AREA <= |d|
    requires OwnStored(d, n, i)
    ensures var d' := Patch(d, DaOfs(n.ino) + DENTRY_SIZE * i, EncDentry(RecordOf(n.kids[i]), valid));
            OwnStored(d', n, i + 1) && Untouched(d, d', {n.ino})
  {
    var at := DaOfs(n.ino) + DENTRY_SIZE * i;
    var b := EncDentry(RecordOf(n.kids[i]), valid);
    var d' := Patch(d, at, b);
    DentryRoundTrip(RecordOf(n.kids[i]), valid);
    PatchSlice(d, at, b);
    PatchApart(d, at, b, InoOfs(n.ino), InoOfs(n.ino) + INODE_SIZE);
    forall j: nat | j < i + 1 ensures KidStored(d', DaOfs(n.ino) + DENTRY_SIZE * j, n.kids[j]) {
      if j < i {
        assert KidStored(d, DaOfs(n.ino) + DENTRY_SIZE * j, n.kids[j]);
        EarlierKidKept(d, at, b, DaOfs(n.ino) + DENTRY_SIZE * j, n.kids[j]);
      }
    }
    PatchTouches(d, at, b, n.ino);
  }

  /** A dentry before the bytes that are written. */
  lemma EarlierKidKept(d: Bytes, at: nat, b: Bytes, o: nat, kid: Dentry)
    requires KidStored(d, o, kid) && o + DENTRY_SIZE <= at && at + |b| <= |d|
    ensures KidStored(Patch(d, at, b), o, kid)
  {
    PatchApart(d, at, b, o, o + DENTRY_SIZE);
  }

  lemma {:induction false} CeilGrows(x: nat, y: nat, n: nat)
    requires n > 0 && x <= y
    ensures Ceil(x, n) <= Ceil(y, n)
  {
    if x > n {
      CeilGrows(x - n, y - n, n);
    }
  }

  /** Everything up to the end of n's data can be read and written. */
  lemma FitsRegion(dev: Device, n: Node, offset: nat, size: nat)
    requires dev.io > 0 && Fit(n, dev.io, |dev.disk|) && offset + size <= DaOfs(n.ino) + DATA_PER_FILE * BlockSize(dev.io)
    ensures dev.Fits(offset, size)
  {
    CeilGrows(offset + size, DaOfs(n.ino) + DATA_PER_FILE * BlockSize(dev.io), BlockSize(dev.io));
  }

  // ---------------------------------------------------------------------------------------
  // newfs_sync_inode
  // ---------------------------------------------------------------------------------------

  /** The first i kids of directory n are written, and nothing outside their regions and n's. */
  ghost predicate Synced(d0: Bytes, d: Bytes, n: Node, i: nat)
    requires n.Dir? && i <= |n.kids|
  {
    OwnStored(d, n, i) && KidsStored(d, n.kids[..i]) && Untouched(d0, d, {n.ino} + KidInos(n.kids[..i]))
  }

  /** Uninitialised bytes: only their number is known. */
  method Junk(n: nat) returns (b: Bytes)
    ensures |b| == n
  {
    b := seq(n, _ => 0xA5);
  }

  /** newfs_sync_inode (newfs.c:193-240). */
  method SyncInode(dev: Device, n: Node)
    requires dev.io > 0 && Fit(n, dev.io, |dev.disk|) && Distinct(n)
    modifies dev
    ensures Stored(dev.disk, n) && Untouched(old(dev.disk), dev.disk, Inos(n))
    decreases n, 2
  {
    var link := Junk(4);
    var rest := Junk(12);
    assert INODE_OFS + n.ino * INODE_SIZE + INODE_SIZE <= DATA_OFS;
    FitsRegion(dev, n, InoOfs(n.ino), INODE_SIZE);
    ghost var d0 := dev.disk;
    RecordWritten(d0, n, link, rest);
    dev.DriverWrite(InoOfs(n.ino), EncInode(Record(n), link, rest));
    if n.Dir? {
      SyncKids(dev, n, d0);
    } else if n.File? {
      SyncData(dev, n, d0);
    }
  }

  /** A file's bytes, rounded up to whole blocks. */
  method SyncData(dev: Device, n: Node, ghost d0: Bytes)
    requires dev.io > 0 && Fit(n, dev.io, |dev.disk|) && n.File? && OwnStored(dev.disk, n, 0) && Untouched(d0, dev.disk, {n.ino})
    modifies dev
    ensures StoredOne(dev.disk, n) && Untouched(d0, dev.disk, {n.ino})
  {
    var len := RoundUp(n.size, BlockSize(dev.io));
    FitsRegion(dev, n, DaOfs(n.ino), len);
    ghost var d := dev.disk;
    dev.DriverWrite(DaOfs(n.ino), n.data[..len]);
    DataWritten(d, n, len);
    UntouchedMore(d0, d, dev.disk, {n.ino}, {n.ino});
    assert {n.ino} + {n.ino} == {n.ino};
  }

  lemma DataWritten(d: Bytes, n: Node, len: nat)
    requires n.File? && n.ino < INODE_NUM && n.size <= len <= |n.data| && len <= AREA && DaOfs(n.ino) + len <= |d| && OwnStored(d, n, 0)
    ensures var d' := Patch(d, DaOfs(n.ino), n.data[..len]); StoredOne(d', n) && Untouched(d, d', {n.ino})
  {
    var at, b := DaOfs(n.ino), n.data[..len];
    var d' := Patch(d, at, b);
    PatchSlice(d, at, b);
    PatchApart(d, at, b, InoOfs(n.ino), InoOfs(n.ino) + INODE_SIZE);
    PatchTouches(d, at, b, n.ino);
    assert d'[at..at + n.size] == d'[at..at + len][..n.size];
    assert b[..n.size] == n.data[..n.size];
  }

  /** A directory's dentries, each followed by the tree below it. */
  method SyncKids(dev: Device, n: Node, ghost d0: Bytes)
    requires dev.io > 0 && Fit(n, dev.io, |dev.disk|) && n.Dir? && Distinct(n) && OwnStored(dev.disk, n, 0) && Untouched(d0, dev.disk, {n.ino})
    modifies dev
    ensures Stored(dev.disk, n) && Untouched(d0, dev.disk, Inos(n))
    decreases n, 1
  {
    var i, offset := 0, DaOfs(n.ino);
    ghost var len := |dev.disk|;
    assert n.kids[..0] == [];
    assert {n.ino} + KidInos(n.kids[..0]) == {n.ino};
    while i < |n.kids|
      invariant 0 <= i <= |n.kids| && offset == DaOfs(n.ino) + DENTRY_SIZE * i && |dev.disk| == len
      invariant Synced(d0, dev.disk, n, i)
    {
      SyncKid(dev, n, i, offset, d0);
      i, offset := i + 1, offset + DENTRY_SIZE;
    }
    assert n.kids[..i] == n.kids;
  }

  /** One round: dentry i, and the tree it leads to if that is in memory. */
  method SyncKid(dev: Device, n: Node, i: nat, offset: nat, ghost d0: Bytes)
    requires dev.io > 0 && Fit(n, dev.io, |dev.disk|) && n.Dir? && Distinct(n)
    requires i < |n.kids| && offset == DaOfs(n.ino) + DENTRY_SIZE * i && Synced(d0, dev.disk, n, i)
    modifies dev
    ensures |dev.disk| == |old(dev.disk)| && Synced(d0, dev.disk, n, i + 1)
    decreases n, 0
  {
    ghost var d, len := dev.disk, |dev.disk|;
    KidFits(n.kids, dev.io, len, i);
    FitsRegion(dev, n, offset, DENTRY_SIZE);
    FitsRegion(dev, n, DaOfs(n.ino), AREA);
    var valid := Junk(4);
    KidWritten(d, n, i, valid);
    dev.DriverWrite(offset, EncDentry(RecordOf(n.kids[i]), valid));
    ghost var d' := dev.disk;
    DentrySynced(d0, d, d', n, i, dev.io, len);
    if n.kids[i].inode.Some? {
      KidsPrefix(n.kids, i + 1);
      KidsStep(n.kids, i);
      SyncInode(dev, n.kids[i].inode.value);
    }
    KidSynced(d0, d', dev.disk, n, i, dev.io, len);
  }

  lemma {:induction false} KidsFitPrefix(kids: seq<Dentry>, io: nat, len: nat, i: nat)
    requires io > 0 && KidsFit(kids, io, len) && i <= |kids|
    ensures KidsFit(kids[..i], io, len)
  {
    if i < |kids| {
      assert kids[..|kids| - 1][..i] == kids[..i];
      KidsFitPrefix(kids[..|kids| - 1], io, len, i);
    } else {
      assert kids[..i] == kids;
    }
  }

  /** The dentry written: earlier kids' trees are in other regions. */
  lemma DentrySynced(d0: Bytes, d: Bytes, d': Bytes, n: Node, i: nat, io: nat, len: nat)
    requires io > 0 && Fit(n, io, len) && n.Dir? && Distinct(n) && i < |n.kids| && Synced(d0, d, n, i)
    requires OwnStored(d', n, i + 1) && Untouched(d, d', {n.ino})
    ensures KidsStored(d', n.kids[..i]) && Untouched(d0, d', {n.ino} + KidInos(n.kids[..i]))
  {
    KidsPrefix(n.kids, i);
    KidsFitPrefix(n.kids, io, len, i);
    KidsKept(d, d', n.kids[..i], {n.ino}, io, len);
    UntouchedMore(d0, d, d', {n.ino} + KidInos(n.kids[..i]), {n.ino});
    assert {n.ino} + KidInos(n.kids[..i]) + {n.ino} == {n.ino} + KidInos(n.kids[..i]);
  }

  /** The kid's tree written: n's own record and dentries, and earlier trees, are elsewhere. */
  lemma KidSynced(d0: Bytes, d: Bytes, d': Bytes, n: Node, i: nat, io: nat, len: nat)
    requires io > 0 && Fit(n, io, len) && n.Dir? && Distinct(n) && i < |n.kids|
    requires OwnStored(d, n, i + 1) && KidsStored(d, n.kids[..i]) && Untouched(d0, d, {n.ino} + KidInos(n.kids[..i]))
    requires if n.kids[i].inode.Some? then var kid := n.kids[i].inode.value; Stored(d', kid) && Untouched(d, d', Inos(kid)) else d' == d
    ensures Synced(d0, d', n, i + 1)
  {
    KidsStep(n.kids, i);
    KidsPrefix(n.kids, i + 1);
    KidFits(n.kids, io, len, i);
    if n.kids[i].inode.Some? {
      var kid := n.kids[i].inode.value;
      InosInRange(kid, io, len);
      KidsFitPrefix(n.kids, io, len, i);
      OwnKept(d, d', n, i + 1, Inos(kid));
      KidsKept(d, d', n.kids[..i], Inos(kid), io, len);
      UntouchedMore(d0, d, d', {n.ino} + KidInos(n.kids[..i]), Inos(kid));
      assert {n.ino} + KidInos(n.kids[..i]) + Inos(kid) == {n.ino} + KidInos(n.kids[..i + 1]);
    } else {
      assert KidInos(n.kids[..i + 1]) == KidInos(n.kids[..i]);
    }
  }

  // ---------------------------------------------------------------------------------------
  // newfs_read_inode
  // ---------------------------------------------------------------------------------------

  /** A dentry read from disk, its inode not yet in memory. */
  datatype Entry = Entry(name: Bytes, ftype: int, ino: int)

  /** An inode read from disk. */
  datatype Reread =
    | RFile(ino: int, size: int, data: Bytes)
    | RDir(ino: int, list: Listing<Entry>)
    | RLink(ino: int, size: int)

  /** The bytes before the first NUL of name, and how many. */
  method StrLen(name: Bytes) returns (k: nat)
    requires exists i: nat :: i < |name| && name[i] == 0
    ensures k < |name| && name[k] == 0 && forall i: nat :: i < k ==> name[i] != 0
  {
    k := 0;
    while name[k] != 0
      invariant k < |name| && forall i: nat :: i < k ==> name[i] != 0
      decreases |name| - k
    {
      k := k + 1;
    }
  }

  /** new_dentry's name (newfs.c:113-122): the text copied over zeros.  A proper name comes out
      as it went in. */
  method NewDentry(fname: Bytes, ftype: int, ino: int) returns (e: Entry)
    requires |fname| == NAME && exists i: nat :: i < NAME && fname[i] == 0
    ensures e.ftype == ftype && e.ino == ino && Proper(e.name)
    ensures exists k: nat :: k < NAME && fname[k] == 0 && TextThenZeros(e.name, k) && e.name[..k] == fname[..k]
    ensures e.name == fname <==> Proper(fname)
  {
    var k := StrLen(fname);
    var name := Patch(seq(NAME, _ => 0), 0, fname[..k]);
    assert TextThenZeros(name, k);
    if Proper(fname) {
      ghost var j: nat :| TextThenZeros(fname, j);
      assert fname[j] == 0 && fname[k] == 0;
      assert name == fname;
    }
    e := Entry(name, ftype, ino);
  }

  /** kids, last one first. */
  function Reversed(kids: seq<Dentry>): (r: seq<Entry>)
    ensures |r| == |kids| && forall i: nat :: i < |kids| ==> r[i] == EntryOf(kids[|kids| - 1 - i])
  {
    if |kids| == 0 then [] else [EntryOf(kids[|kids| - 1])] + Reversed(kids[..|kids| - 1])
  }

  function EntryOf(d: Dentry): Entry {
    Entry(d.name, TypeCode(d.ftype), d.ino)
  }

  /** Position i of a list is kid j: its name, its type, its inode number. */
  ghost predicate IsKid(e: Entry, d: Dentry) {
    e.name == d.name && FtypeOf(e.ftype) == Some(d.ftype) && e.ino == d.ino
  }

  lemma EntryLaw(d: Dentry)
    ensures IsKid(EntryOf(d), d)
  {
    match d.ftype
    case FILE => assert TypeCode(FILE) == 0;
    case DIR => assert TypeCode(DIR) == 1;
    case SYM_LINK => assert TypeCode(SYM_LINK) == 2;
  }

  lemma {:induction false} ReversedLaw(kids: seq<Dentry>, i: nat)
    requires i < |kids|
    ensures IsKid(Reversed(kids)[i], kids[|kids| - 1 - i])
  {
    var r := Reversed(kids);
    assert r[i] == EntryOf(kids[|kids| - 1 - i]);
    EntryLaw(kids[|kids| - 1 - i]);
  }

  lemma ListLaw(list: seq<Entry>, kids: seq<Dentry>, n: nat)
    requires n <= |kids| && list == Reversed(kids[..n])
    ensures |list| == n && forall i: nat :: i < n ==> IsKid(list[i], kids[n - 1 - i])
  {
    forall i: nat | i < n ensures IsKid(list[i], kids[n - 1 - i]) {
      ReversedLaw(kids[..n], i);
    }
  }

  /** Four bytes that decode to a small number are that number and zeros. */
  lemma SmallBytes(b: Bytes, c: int)
    requires |b| == 4 && Dec32(b) == c && 0 <= c < 256
    ensures b == [c, 0, 0, 0]
  {
    var b0: int, b1: int, b2: int, b3: int := b[0], b[1], b[2], b[3];
    assert b1 == 0 && b2 == 0 && b3 == 0;
  }

  /** The type bytes of a stored inode and of its dentries, as the enum numbers the types. */
  lemma TypesOnDisk(d: Bytes, n: Node, j: nat)
    requires StoredOne(d, n) && (n.Dir? ==> j < |n.kids|)
    ensures d[InoOfs(n.ino) + 12..InoOfs(n.ino) + 16] == [if n.File? then 0 else if n.Dir? then 1 else 2, 0, 0, 0]
    ensures n.Dir? ==>
              var o := DaOfs(n.ino) + DENTRY_SIZE * j;
              o + DENTRY_SIZE <= |d| && d[o + 128..o + 132] == [if n.kids[j].ftype == FILE then 0 else if n.kids[j].ftype == DIR then 1 else 2, 0, 0, 0]
  {
    var r := d[InoOfs(n.ino)..InoOfs(n.ino) + INODE_SIZE];
    SlicePart(d, InoOfs(n.ino), INODE_SIZE, 12, 4);
    SmallBytes(r[12..16], DecInode(r).ftype);
    if n.Dir? {
      var o := DaOfs(n.ino) + DENTRY_SIZE * j;
      assert KidStored(d, o, n.kids[j]);
      var k := d[o..o + DENTRY_SIZE];
      SlicePart(d, o, DENTRY_SIZE, 128, 4);
      SmallBytes(k[128..132], DecDentry(k).ftype);
    }
  }

  /** The list that reading back a directory gives: its first dirCnt dentries, reversed, of which as
      many are counted as the data map, which was `bits`, had bits for. */
  ghost predicate RecoversList(d: Listing<Entry>, size: nat, kids: seq<Dentry>, bits: seq<bool>, maxData: nat) {
    var c := Counted(bits, maxData, |kids|);
    d.entries == Reversed(kids) && d.dirCnt == c && d.size == size + DENTRY_MEM * c
  }

  /** r is what was written for n: a file's size and bytes, or that list. */
  ghost predicate Recovers(r: Reread, n: Node, bits: seq<bool>, maxData: nat)
    requires n.Dir? ==> n.dirCnt <= |n.kids|
  {
    match n
    case File(ino, size, data) => r.RFile? && r.ino == ino && r.size == size && size <= |data| && size <= |r.data| && r.data[..size] == data[..size]
    case Dir(ino, size, cnt, kids) => r.RDir? && r.ino == ino && RecoversList(r.list, size, kids[..cnt], bits, maxData)
    case Link(ino, size) => r == RLink(ino, size)
  }

  /** newfs_read_inode (newfs.c:298-339), of an inode that is on the disk. */
  method ReadInode(dev: Device, data: DataMap, ftype: Ftype, ino: nat, ghost n: Node) returns (r: Reread)
    requires dev.io > 0 && Fit(n, dev.io, |dev.disk|) && StoredOne(dev.disk, n) && ftype == TypeOf(n) && ino == n.ino && |data.bits| % 8 == 0
    modifies dev`pos, data
    ensures Recovers(r, n, old(data.bits), data.maxData)
    ensures n.Dir? ==> forall i: nat :: i < n.dirCnt ==> IsKid(r.list.entries[i], n.kids[n.dirCnt - 1 - i])
    ensures data.bits == if n.Dir? then TakenAfter(old(data.bits), n.dirCnt) else old(data.bits)
  {
    assert InoOfs(n.ino) + INODE_SIZE <= DATA_OFS;
    FitsRegion(dev, n, InoOfs(ino), INODE_SIZE);
    var b := dev.DriverRead(InoOfs(ino), INODE_SIZE);
    var d := DecInode(b);
    match ftype
    case DIR =>
      var list := ReadKids(dev, data, ino, d.size, d.dirCnt, n);
      ListLaw(list.entries, n.kids, n.dirCnt);
      r := RDir(d.ino, list);
    case FILE =>
      var bytes := ReadData(dev, ino, n);
      r := RFile(d.ino, d.size, bytes);
    case SYM_LINK =>
      r := RLink(d.ino, d.size);
  }

  /** The loop over a directory's dentries, each put at the head of the list. */
  method ReadKids(dev: Device, data: DataMap, ino: nat, size: nat, dirCnt: int, ghost n: Node) returns (d: Listing<Entry>)
    requires dev.io > 0 && Fit(n, dev.io, |dev.disk|) && StoredOne(dev.disk, n) && n.Dir? && ino == n.ino && size == n.size && dirCnt == n.dirCnt
    requires |data.bits| % 8 == 0
    modifies dev`pos, data
    ensures RecoversList(d, size, n.kids[..n.dirCnt], old(data.bits), data.maxData) && data.bits == TakenAfter(old(data.bits), n.dirCnt)
  {
    d := Listing([], 0, size);
    var i := 0;
    while i < dirCnt
      invariant 0 <= i <= dirCnt && data.bits == TakenAfter(old(data.bits), i)
      invariant RecoversList(d, size, n.kids[..i], old(data.bits), data.maxData)
    {
      var e := ReadKid(dev, ino, i, n);
      var ok;
      ghost var before := d;
      d, ok := data.AllocDentry(d, e, BlockSize(dev.io));
      OneMoreKid(before, d, size, n.kids, i, old(data.bits), data.maxData, ok);
      i := i + 1;
    }
  }

  lemma OneMoreKid(d: Listing<Entry>, d': Listing<Entry>, size: nat, kids: seq<Dentry>, i: nat, bits: seq<bool>, maxData: nat, ok: bool)
    requires i < |kids| && RecoversList(d, size, kids[..i], bits, maxData)
    requires d'.entries == [EntryOf(kids[i])] + d.entries && (ok <==> Counts(TakenAfter(bits, i), maxData))
    requires if ok then d'.dirCnt == d.dirCnt + 1 && d'.size == d.size + DENTRY_MEM else d'.dirCnt == d.dirCnt && d'.size == d.size
    ensures RecoversList(d', size, kids[..i + 1], bits, maxData)
  {
    assert kids[..i + 1][..i] == kids[..i];
  }

  method ReadKid(dev: Device, ino: nat, i: nat, ghost n: Node) returns (e: Entry)
    requires dev.io > 0 && Fit(n, dev.io, |dev.disk|) && StoredOne(dev.disk, n) && n.Dir? && ino == n.ino && i < |n.kids|
    modifies dev`pos
    ensures e == EntryOf(n.kids[i])
  {
    KidFits(n.kids, dev.io, |dev.disk|, i);
    FitsRegion(dev, n, DaOfs(ino) + i * DENTRY_SIZE, DENTRY_SIZE);
    assert KidStored(dev.disk, DaOfs(ino) + DENTRY_SIZE * i, n.kids[i]);
    var b := dev.DriverRead(DaOfs(ino) + i * DENTRY_SIZE, DENTRY_SIZE);
    var d := DecDentry(b);
    ProperHasNul(d.name);
    e := NewDentry(d.name, d.ftype, d.ino);
  }

  /** A file's whole area, which starts with its bytes. */
  method ReadData(dev: Device, ino: nat, ghost n: Node) returns (data: Bytes)
    requires dev.io > 0 && Fit(n, dev.io, |dev.disk|) && StoredOne(dev.disk, n) && n.File? && ino == n.ino
    modifies dev`pos
    ensures n.size <= |n.data| && n.size <= |data| && data[..n.size] == n.data[..n.size]
  {
    var len := DATA_PER_FILE * BlockSize(dev.io);
    FitsRegion(dev, n, DaOfs(ino), len);
    data := dev.DriverRead(DaOfs(ino), len);
    assert data[..n.size] == dev.disk[DaOfs(ino)..DaOfs(ino) + n.size];
  }

  lemma ProperHasNul(name: Bytes)
    requires Proper(name)
    ensures exists i: nat :: i < NAME && name[i] == 0
  {
    var k: nat :| TextThenZeros(name, k);
    assert name[k] == 0;
  }

  // ---------------------------------------------------------------------------------------
  // The round trip
  // ---------------------------------------------------------------------------------------

  /** n is the root or is in memory somewhere below it. */
  ghost predicate Within(n: Node, root: Node)
    decreases root
  {
    n == root || (root.Dir? && WithinKids(n, root.kids))
  }

  ghost predicate WithinKids(n: Node, kids: seq<Dentry>)
    decreases kids
  {
    |kids| > 0 &&
    var i := |kids| - 1;
    WithinKids(n, kids[..i]) || (kids[i].inode.Some? && Within(n, kids[i].inode.value))
  }

  /** Every inode of a stored tree is stored. */
  lemma {:induction false} EachIsStored(d: Bytes, n: Node, root: Node, io: nat)
    requires io > 0 && Stored(d, root) && Fit(root, io, |d|) && Within(n, root)
    ensures StoredOne(d, n) && Fit(n, io, |d|)
    decreases root
  {
    if n != root {
      EachKidIsStored(d, n, root.kids, io);
    }
  }

  lemma {:induction false} EachKidIsStored(d: Bytes, n: Node, kids: seq<Dentry>, io: nat)
    requires io > 0 && KidsStored(d, kids) && KidsFit(kids, io, |d|) && WithinKids(n, kids)
    ensures StoredOne(d, n) && Fit(n, io, |d|)
    decreases kids
  {
    var i := |kids| - 1;
    if WithinKids(n, kids[..i]) {
      EachKidIsStored(d, n, kids[..i], io);
    } else {
      EachIsStored(d, n, kids[i].inode.value, io);
    }
  }

  /** Sync the tree, then read any inode of it back.  A directory comes back with all its dentries,
      reversed, exactly when its dir_cnt counts them all; and their new count is right exactly when
      the data map has bits enough. */
  method SyncThenRead(dev: Device, data: DataMap, root: Node, n: Node) returns (r: Reread)
    requires dev.io > 0 && Fit(root, dev.io, |dev.disk|) && Distinct(root) && Within(n, root) && |data.bits| % 8 == 0
    modifies dev, data
    ensures Untouched(old(dev.disk), dev.disk, Inos(root))
    ensures (n.Dir? ==> n.dirCnt <= |n.kids|) && Recovers(r, n, old(data.bits), data.maxData)
    ensures n.Dir? ==> |r.list.entries| == n.dirCnt && forall i: nat :: i < n.dirCnt ==> IsKid(r.list.entries[i], n.kids[n.dirCnt - 1 - i])
    ensures n.Dir? ==> (r.list.entries == Reversed(n.kids) <==> n.dirCnt == |n.kids|)
    ensures n.Dir? ==> (r.list.dirCnt == |r.list.entries| <==> n.dirCnt <= Supply(old(data.bits), data.maxData))
  {
    SyncInode(dev, root);
    EachIsStored(dev.disk, n, root, dev.io);
    r := ReadInode(dev, data, TypeOf(n), n.ino, n);
    if n.Dir? {
      AllCountedIff(old(data.bits), data.maxData, n.dirCnt);
      assert n.dirCnt == |n.kids| ==> n.kids[..n.dirCnt] == n.kids;
    }
  }

  lemma LoneKid(kid: Dentry, io: nat, len: nat)
    requires io > 0 && kid.inode.None? && Proper(kid.name) && Int32(kid.ino)
    ensures KidsFit([kid], io, len) && KidInos([kid]) == {} && KidsDistinct([kid])
  {
    var none: seq<Dentry> := [];
    assert [kid][..0] == none;
    assert KidInos(none) == {} && KidsFit(none, io, len) && KidsDistinct(none);
  }

  /** With no data bit left a dentry goes into its directory uncounted, and is gone after a sync. */
  method DentryIsLost(dev: Device, data: DataMap, name: Bytes, ino: nat, kidIno: nat) returns (d: Listing<Entry>, r: Reread)
    requires dev.io > 0 && Proper(name) && ino < INODE_NUM && kidIno < INODE_NUM && |data.bits| % 8 == 0 && Supply(data.bits, data.maxData) == 0
    requires Ceil(DaOfs(ino) + DATA_PER_FILE * BlockSize(dev.io), BlockSize(dev.io)) <= |dev.disk|
    modifies dev, data
    ensures d.entries == [Entry(name, TypeCode(FILE), kidIno)] && d.dirCnt == 0
    ensures r.RDir? && r.ino == ino && r.list.entries == []
  {
    CountsIff(data.bits, data.maxData);
    var ok;
    d, ok := data.AllocDentry(Listing([], 0, 0), Entry(name, TypeCode(FILE), kidIno), BlockSize(dev.io));
    var kid := Dentry(name, FILE, kidIno, None);
    var n := Dir(ino, d.size, d.dirCnt, [kid]);
    LoneKid(kid, dev.io, |dev.disk|);
    r := SyncThenRead(dev, data, n, n);
    assert n.kids[..0] == [];
  }

  /** So an inode that is not in memory keeps its regions. */
  lemma UncachedIsKept(d: Bytes, d': Bytes, root: Node, io: nat, ino: nat, a: nat)
    requires io > 0 && Fit(root, io, |d|) && Untouched(d, d', Inos(root)) && ino !in Inos(root) && ino < INODE_NUM
    requires a < |d| && InRegion(a, ino)
    ensures d'[a] == d[a]
  {
    InosInRange(root, io, |d|);
    SliceKept(d, d', Inos(root), ino, a, a + 1);
    assert d'[a..a + 1][0] == d[a..a + 1][0];
  }
}

/**
 Copies between the kernel and user memory (vm.c), against a flat virtual memory of bytes.
 */
module UserCopy {
  import opened Common
  import opened Riscv
  import opened PageTable
  import opened UserMemory

  /** Page v of t is a user page. */
  predicate UserPage(w: World, t: nat, v: nat) {
    v < Vpn(MAXVA) && At(t, v) in w.flat && w.flat[At(t, v)].u
  }

  /** Every user page of t is a stored page. */
  ghost predicate UserStored(w: World, t: nat) {
    forall v: nat :: UserPage(w, t, v) ==> w.flat[At(t, v)].ppn in w.data && |w.data[w.flat[At(t, v)].ppn]| == PGSIZE
  }

  /** No two user pages of t share a physical page. */
  ghost predicate NoAlias(w: World, t: nat) {
    forall v: nat, u: nat :: UserPage(w, t, v) && UserPage(w, t, u) && v != u ==> w.flat[At(t, v)].ppn != w.flat[At(t, u)].ppn
  }

  /** The byte at user address a, if a user may access it. */
  ghost function UByte(w: World, t: nat, a: nat): Option<bv8>
    requires UserStored(w, t)
  {
    if UserPage(w, t, Vpn(a)) then Some(w.data[w.flat[At(t, Vpn(a))].ppn][a % PGSIZE]) else None
  }

  /** Addresses a .. a+n are accessible. */
  ghost predicate Access(w: World, t: nat, a: nat, n: nat)
    requires UserStored(w, t)
  {
    forall c: nat :: a <= c < a + n ==> UByte(w, t, c).Some?
  }

  /** They hold the bytes b. */
  ghost predicate Reads(w: World, t: nat, a: nat, b: seq<bv8>)
    requires UserStored(w, t)
  {
    forall c: nat :: a <= c < a + |b| ==> UByte(w, t, c) == Some(b[c - a])
  }

  /** From w to x exactly the bytes b were written at a, as far as t's user can see. */
  ghost predicate Writes(w: World, x: World, t: nat, a: nat, b: seq<bv8>)
    requires UserStored(w, t) && UserStored(x, t)
  {
    forall c: nat :: UByte(x, t, c) == if a <= c < a + |b| then Some(b[c - a]) else UByte(w, t, c)
  }

  /** walkaddr (vm.c:138-155): the physical page of a user address, or 0. */
  method Walkaddr(m: Memory, t: nat, va: nat) returns (p: nat)
    requires m.Valid() && IsRoot(m.use, t)
    modifies m
    ensures m.Valid() && m.Now() == old(m.Now())
    ensures p != 0 <==> UserPage(m.Now(), t, Vpn(va))
    ensures p != 0 ==> p == m.flat[At(t, Vpn(va))].ppn
  {
    if va >= MAXVA {
      return 0;
    }
    var found, e := m.Lookup(t, va);
    if !found || !e.v || !e.u {
      return 0;
    }
    p := e.ppn;
  }

  /** The part of a copy that lies in the page of a: at least one byte, and no more than len. */
  function Chunk(a: nat, len: nat): (n: nat)
    requires len > 0
    ensures 0 < n <= len && a % PGSIZE + n <= PGSIZE && (n < len ==> a + n == PgRoundDown(a) + PGSIZE)
    ensures forall c: nat :: a <= c < a + n ==> Vpn(c) == Vpn(a) && c % PGSIZE == a % PGSIZE + (c - a)
  {
    var n := PGSIZE - (a - PgRoundDown(a));
    ChunkPage(a);
    if n > len then len else n
  }

  lemma ChunkPage(a: nat)
    ensures a - PgRoundDown(a) == a % PGSIZE
    ensures forall c: nat :: a <= c < PgRoundDown(a) + PGSIZE ==> Vpn(c) == Vpn(a) && c % PGSIZE == a % PGSIZE + (c - a)
  {
    forall c: nat | a <= c < PgRoundDown(a) + PGSIZE ensures Vpn(c) == Vpn(a) && c % PGSIZE == a % PGSIZE + (c - a) {
      assert c == Vpn(a) * PGSIZE + (a % PGSIZE + (c - a));
    }
  }

  /** The bytes of one chunk. */
  lemma ChunkReads(w: World, t: nat, a: nat, n: nat)
    requires UserStored(w, t) && UserPage(w, t, Vpn(a)) && a % PGSIZE + n <= PGSIZE
    requires forall c: nat :: a <= c < a + n ==> Vpn(c) == Vpn(a) && c % PGSIZE == a % PGSIZE + (c - a)
    ensures Reads(w, t, a, w.data[w.flat[At(t, Vpn(a))].ppn][a % PGSIZE..a % PGSIZE + n])
  {
  }

  lemma ReadsMore(w: World, t: nat, a: nat, b: seq<bv8>, b': seq<bv8>)
    requires UserStored(w, t) && Reads(w, t, a, b) && Reads(w, t, a + |b|, b')
    ensures Reads(w, t, a, b + b')
  {
  }

  /** copyin (vm.c:557-576): 0 iff all the addresses are accessible, with their bytes; a failure
      has read the bytes before the first page that is not. */
  method Copyin(m: Memory, t: nat, srcva: nat, len: nat) returns (ok: bool, dst: seq<bv8>)
    requires m.Valid() && IsRoot(m.use, t) && UserStored(m.Now(), t)
    modifies m
    ensures m.Valid() && m.Now() == old(m.Now()) && Reads(m.Now(), t, srcva, dst) && |dst| <= len
    ensures ok <==> Access(m.Now(), t, srcva, len)
    ensures if ok then |dst| == len else |dst| < len && UByte(m.Now(), t, srcva + |dst|) == None
  {
    var a, rest := srcva, len;
    dst := [];
    while rest > 0
      invariant m.Valid() && m.Now() == old(m.Now()) && Reads(m.Now(), t, srcva, dst) && |dst| + rest == len
      invariant rest > 0 ==> a == srcva + |dst|
    {
      var va0 := PgRoundDown(a);
      ChunkPage(a);
      assert Vpn(va0) == Vpn(a);
      var p := Walkaddr(m, t, va0);
      if p == 0 {
        assert UByte(m.Now(), t, srcva + |dst|) == None;
        return false, dst;
      }
      var n := Chunk(a, rest);
      ChunkReads(m.Now(), t, a, n);
      ReadsMore(m.Now(), t, srcva, dst, m.data[p][a % PGSIZE..a % PGSIZE + n]);
      dst := dst + m.data[p][a - va0..a - va0 + n];
      rest, a := rest - n, va0 + PGSIZE;
    }
    ok := true;
  }

  /** p backs a user page of t. */
  ghost predicate Backs(w: World, t: nat, p: nat) {
    exists v: nat :: UserPage(w, t, v) && w.flat[At(t, v)].ppn == p
  }

  /** From w to x only bytes of user pages of t may have changed. */
  ghost predicate UserBytes(w: World, x: World, t: nat) {
    && x.flat == w.flat && x.use == w.use && x.free == w.free && x.data.Keys == w.data.Keys
    && (forall p: nat :: p in w.data ==> |x.data[p]| == |w.data[p]| && (x.data[p] == w.data[p] || Backs(w, t, p)))
  }

  lemma ChunkWrites(x: World, y: World, t: nat, a: nat, b: seq<bv8>, p: nat)
    requires UserStored(x, t) && UserPage(x, t, Vpn(a)) && x.flat[At(t, Vpn(a))].ppn == p && a % PGSIZE + |b| <= PGSIZE
    requires forall c: nat :: a <= c < a + |b| ==> Vpn(c) == Vpn(a) && c % PGSIZE == a % PGSIZE + (c - a)
    requires y == x.(data := x.data[p := Patch(x.data[p], a % PGSIZE, b)])
    ensures UserStored(y, t) && UserBytes(x, y, t) && (NoAlias(x, t) ==> Writes(x, y, t, a, b))
  {
    assert forall v: nat :: UserPage(y, t, v) == UserPage(x, t, v);
    if NoAlias(x, t) {
      forall c: nat ensures UByte(y, t, c) == if a <= c < a + |b| then Some(b[c - a]) else UByte(x, t, c) {
        if UserPage(x, t, Vpn(c)) && x.flat[At(t, Vpn(c))].ppn == p {
          assert Vpn(c) == Vpn(a);
          assert c == Vpn(a) * PGSIZE + c % PGSIZE && a == Vpn(a) * PGSIZE + a % PGSIZE;
        }
      }
    }
  }

  lemma WritesMore(w: World, x: World, y: World, t: nat, a: nat, b: seq<bv8>, b': seq<bv8>)
    requires UserStored(w, t) && UserStored(x, t) && UserStored(y, t)
    requires Writes(w, x, t, a, b) && Writes(x, y, t, a + |b|, b')
    ensures Writes(w, y, t, a, b + b')
  {
    forall c: nat ensures UByte(y, t, c) == if a <= c < a + |b + b'| then Some((b + b')[c - a]) else UByte(w, t, c) {
      assert UByte(x, t, c) == if a <= c < a + |b| then Some(b[c - a]) else UByte(w, t, c);
    }
  }

  lemma UserBytesMore(w: World, x: World, y: World, t: nat)
    requires UserBytes(w, x, t) && UserBytes(x, y, t) && UserStored(w, t)
    ensures UserBytes(w, y, t) && UserStored(y, t)
  {
    forall p: nat | p in w.data && Backs(x, t, p) ensures Backs(w, t, p) {
      var v: nat :| UserPage(x, t, v) && x.flat[At(t, v)].ppn == p;
      assert UserPage(w, t, v);
    }
    assert forall v: nat :: UserPage(y, t, v) == UserPage(w, t, v);
  }

  lemma SameAccess(w: World, x: World, t: nat, a: nat)
    requires UserBytes(w, x, t) && UserStored(w, t) && UserStored(x, t)
    ensures UByte(x, t, a).Some? <==> UByte(w, t, a).Some?
  {
    assert UserPage(x, t, Vpn(a)) == UserPage(w, t, Vpn(a));
  }

  /** copyout (vm.c:532-551): 0 iff all the addresses are accessible; without aliasing, exactly
      they come to hold src, or on failure those before the first page that is not accessible. */
  method Copyout(m: Memory, t: nat, dstva: nat, src: seq<bv8>) returns (ok: bool, ghost k: nat)
    requires m.Valid() && IsRoot(m.use, t) && UserStored(m.Now(), t)
    modifies m
    ensures m.Valid() && UserBytes(old(m.Now()), m.Now(), t) && UserStored(m.Now(), t) && k <= |src|
    ensures ok <==> Access(old(m.Now()), t, dstva, |src|)
    ensures NoAlias(old(m.Now()), t) ==> Writes(old(m.Now()), m.Now(), t, dstva, src[..k])
    ensures if ok then k == |src| else k < |src| && UByte(old(m.Now()), t, dstva + k) == None
  {
    var a, done := dstva, 0;
    ghost var w := m.Now();
    k := 0;
    while done < |src|
      invariant 0 <= done <= |src| && k == done && (done < |src| ==> a == dstva + done)
      invariant m.Valid() && IsRoot(m.use, t) && UserBytes(w, m.Now(), t) && UserStored(m.Now(), t)
      invariant Access(w, t, dstva, done)
      invariant NoAlias(w, t) ==> Writes(w, m.Now(), t, dstva, src[..done])
      decreases |src| - done
    {
      var n := OutChunk(m, t, a, src[done..], w, dstva, src[..done]);
      if n == 0 {
        SameAccess(w, m.Now(), t, a);
        return false, done;
      }
      assert src[..done] + src[done..][..n] == src[..done + n];
      done, a := done + n, PgRoundDown(a) + PGSIZE;
      k := done;
    }
    ok := true;
  }

  /** One round of copyout; 0 when the page is not accessible. */
  method OutChunk(m: Memory, t: nat, a: nat, src: seq<bv8>, ghost w: World, ghost dstva: nat, ghost b: seq<bv8>) returns (n: nat)
    requires m.Valid() && IsRoot(m.use, t) && |src| > 0 && a == dstva + |b|
    requires UserStored(w, t) && UserBytes(w, m.Now(), t) && UserStored(m.Now(), t) && Access(w, t, dstva, |b|)
    requires NoAlias(w, t) ==> Writes(w, m.Now(), t, dstva, b)
    modifies m
    ensures m.Valid() && IsRoot(m.use, t) && UserBytes(w, m.Now(), t) && UserStored(m.Now(), t)
    ensures n <= |src| && Access(w, t, dstva, |b| + n) && (0 < n < |src| ==> a + n == PgRoundDown(a) + PGSIZE)
    ensures n == 0 ==> m.Now() == old(m.Now()) && UByte(m.Now(), t, a) == None
    ensures NoAlias(w, t) ==> Writes(w, m.Now(), t, dstva, b + src[..n])
  {
    var va0 := PgRoundDown(a);
    ChunkPage(a);
    assert Vpn(va0) == Vpn(a);
    var p := Walkaddr(m, t, va0);
    if p == 0 {
      assert b + src[..0] == b;
      return 0;
    }
    n := Chunk(a, |src|);
    ghost var x := m.Now();
    m.SetPage(p, Patch(m.data[p], a - va0, src[..n]));
    ghost var y := m.Now();
    ChunkWrites(x, y, t, a, src[..n], p);
    if NoAlias(w, t) {
      AliasSame(w, x, t);
      WritesMore(w, x, y, t, dstva, b, src[..n]);
    }
    UserBytesMore(w, x, y, t);
    ChunkAccess(w, t, dstva, |b|, n, a);
  }

  lemma AliasSame(w: World, x: World, t: nat)
    requires x.flat == w.flat && NoAlias(w, t)
    ensures NoAlias(x, t)
  {
    assert forall v: nat :: UserPage(x, t, v) == UserPage(w, t, v);
  }

  lemma ChunkAccess(w: World, t: nat, dstva: nat, k: nat, n: nat, a: nat)
    requires UserStored(w, t) && Access(w, t, dstva, k) && a == dstva + k && UserPage(w, t, Vpn(a))
    requires forall c: nat :: a <= c < a + n ==> Vpn(c) == Vpn(a)
    ensures Access(w, t, dstva, k + n)
  {
  }

  /** copyin of what copyout wrote gives the same bytes. */
  lemma CopyRoundTrip(w: World, x: World, t: nat, va: nat, src: seq<bv8>, dst: seq<bv8>)
    requires UserStored(w, t) && UserStored(x, t)
    requires Writes(w, x, t, va, src) && Reads(x, t, va, dst) && |dst| == |src|
    ensures dst == src
  {
    forall i: nat | i < |src| ensures dst[i] == src[i] {
      assert UByte(x, t, va + i) == Some(src[va + i - va]);
    }
  }

  /** copyout and then copyin of the same range. */
  method OutThenIn(m: Memory, t: nat, va: nat, src: seq<bv8>) returns (ok: bool, dst: seq<bv8>)
    requires m.Valid() && IsRoot(m.use, t) && UserStored(m.Now(), t) && NoAlias(m.Now(), t)
    modifies m
    ensures ok <==> Access(old(m.Now()), t, va, |src|)
    ensures ok ==> dst == src
  {
    ghost var w, k := m.Now(), 0;
    dst := [];
    ok, k := Copyout(m, t, va, src);
    if ok {
      ghost var x := m.Now();
      assert src[..k] == src;
      forall c: nat | va <= c < va + |src| ensures UByte(x, t, c).Some? {
      }
      var ok';
      ok', dst := Copyin(m, t, va, |src|);
      CopyRoundTrip(w, x, t, va, src, dst);
    }
  }

  /** The bytes at a are b, and none of them is NUL. */
  ghost predicate Text(w: World, t: nat, a: nat, b: seq<bv8>)
    requires UserStored(w, t)
  {
    Reads(w, t, a, b) && forall i: nat :: i < |b| ==> b[i] != 0
  }

  /** A NUL comes after k text bytes, within max bytes and before any page that is not accessible. */
  ghost predicate NulAt(w: World, t: nat, a: nat, max: nat, k: nat)
    requires UserStored(w, t)
  {
    && k < max && UByte(w, t, a + k) == Some(0)
    && forall c: nat :: a <= c < a + k ==> UByte(w, t, c).Some? && UByte(w, t, c) != Some(0)
  }

  /** The inner loop of copyinstr: bytes before the first NUL of s, and whether there is one. */
  method UpToNul(s: seq<bv8>) returns (n: nat, got: bool)
    ensures n <= |s| && (got <==> n < |s|) && (got ==> s[n] == 0)
    ensures forall i: nat :: i < n ==> s[i] != 0
  {
    n, got := 0, false;
    while n < |s|
      invariant n <= |s| && !got
      invariant forall i: nat :: i < n ==> s[i] != 0
    {
      if s[n] == 0 {
        got := true;
        break;
      }
      n := n + 1;
    }
  }

  /** Text of max bytes, or text up to an address that is not accessible, means no NUL in reach. */
  lemma NoNul(w: World, t: nat, a: nat, max: nat, b: seq<bv8>)
    requires UserStored(w, t) && Text(w, t, a, b) && (|b| >= max || UByte(w, t, a + |b|) == None)
    ensures !exists k: nat :: NulAt(w, t, a, max, k)
  {
    forall k: nat ensures !NulAt(w, t, a, max, k) {
      if k < |b| {
        assert UByte(w, t, a + k) == Some(b[a + k - a]);
      }
    }
  }

  /** copyinstr (vm.c:583-619): 0 iff a NUL is in reach, having copied exactly up to it. */
  method Copyinstr(m: Memory, t: nat, srcva: nat, max: nat) returns (ok: bool, dst: seq<bv8>)
    requires m.Valid() && IsRoot(m.use, t) && UserStored(m.Now(), t)
    modifies m
    ensures m.Valid() && m.Now() == old(m.Now())
    ensures ok <==> exists k: nat :: NulAt(m.Now(), t, srcva, max, k)
    ensures ok ==> |dst| > 0 && dst[|dst| - 1] == 0 && NulAt(m.Now(), t, srcva, max, |dst| - 1)
    ensures Reads(m.Now(), t, srcva, dst) && |dst| <= max
  {
    var a, got := srcva, false;
    dst := [];
    while !got && |dst| < max
      invariant m.Valid() && m.Now() == old(m.Now()) && |dst| <= max
      invariant !got ==> Text(m.Now(), t, srcva, dst) && (|dst| < max ==> a == srcva + |dst|)
      invariant got ==> |dst| > 0 && Reads(m.Now(), t, srcva, dst) && dst[|dst| - 1] == 0 && NulAt(m.Now(), t, srcva, max, |dst| - 1)
      decreases !got, max - |dst|
    {
      var va0 := PgRoundDown(a);
      ChunkPage(a);
      assert Vpn(va0) == Vpn(a);
      var p := Walkaddr(m, t, va0);
      if p == 0 {
        NoNul(m.Now(), t, srcva, max, dst);
        return false, dst;
      }
      var n := Chunk(a, max - |dst|);
      ChunkReads(m.Now(), t, a, n);
      var k;
      k, got := UpToNul(m.data[p][a - va0..a - va0 + n]);
      var b := m.data[p][a - va0..a - va0 + n];
      StrStep(m.Now(), t, srcva, max, dst, b, k, got);
      dst := dst + b[..if got then k + 1 else k];
      a := va0 + PGSIZE;
    }
    if !got {
      NoNul(m.Now(), t, srcva, max, dst);
    }
    ok := got;
  }

  lemma StrStep(w: World, t: nat, a: nat, max: nat, dst: seq<bv8>, b: seq<bv8>, k: nat, got: bool)
    requires UserStored(w, t) && Text(w, t, a, dst) && Reads(w, t, a + |dst|, b) && |dst| + |b| <= max
    requires k <= |b| && (got <==> k < |b|) && (got ==> b[k] == 0) && forall i: nat :: i < k ==> b[i] != 0
    ensures Text(w, t, a, dst + b[..k])
    ensures got ==> Reads(w, t, a, dst + b[..k + 1]) && NulAt(w, t, a, max, |dst| + k)
  {
    ReadsMore(w, t, a, dst, b);
    var all := dst + b;
    assert dst + b[..k] == all[..|dst| + k];
    if got {
      assert dst + b[..k + 1] == all[..|dst| + k + 1];
      assert UByte(w, t, a + |dst| + k) == Some(all[a + |dst| + k - a]);
      forall c: nat | a <= c < a + (|dst| + k) ensures UByte(w, t, c).Some? && UByte(w, t, c) != Some(0) {
        assert UByte(w, t, c) == Some(all[c - a]) && (dst + b[..k])[c - a] != 0;
      }
    }
  }
}

/**
 The page and page-table-entry macros of riscv.h, and the Sv39 entry format (section 4.4 of
 the RISC-V Privileged Architecture, Volume II) that they assume.
 */
module Riscv {
  const PGSIZE: nat := 4096
  const MAXVA: nat := 0x40_0000_0000
  const TRAMPOLINE: nat := MAXVA - PGSIZE
  const TRAPFRAME: nat := TRAMPOLINE - PGSIZE
  const PLIC: nat := 0x0c00_0000
  const KERNBASE: nat := 0x8000_0000

  /** Page numbers a three-level table can hold, and the root's share of them below MAXVA. */
  const NVPN: nat := 0x800_0000

  function PgRoundDown(a: nat): (r: nat)
    ensures r % PGSIZE == 0 && r <= a < r + PGSIZE
  {
    a / PGSIZE * PGSIZE
  }

  function PgRoundUp(sz: nat): (r: nat)
    ensures r % PGSIZE == 0 && sz <= r < sz + PGSIZE
  {
    PgRoundDown(sz + PGSIZE - 1)
  }

  /** The page number of an address. */
  function Vpn(a: nat): nat {
    a / PGSIZE
  }

  /** Moving by whole pages moves the page number. */
  lemma VpnShift(a: nat, n: nat)
    ensures Vpn(a + n * PGSIZE) == Vpn(a) + n
    ensures Vpn(n * PGSIZE) == n
    ensures PgRoundDown(a) == Vpn(a) * PGSIZE
  {
  }

  /** Number of pages that hold sz bytes. */
  function Pages(sz: nat): (n: nat)
    ensures n * PGSIZE == PgRoundUp(sz)
  {
    PgRoundUp(sz) / PGSIZE
  }

  /** The table indices of a page number, one per level. */
  datatype Path = Path(l2: nat, l1: nat, l0: nat)

  function PX(level: nat, va: nat): nat
    requires level <= 2
  {
    (if level == 2 then va / 0x4000_0000 else if level == 1 then va / 0x20_0000 else va / 0x1000) % 512
  }

  function PathOf(v: nat): (p: Path)
    requires v < NVPN
    ensures p.l2 < 512 && p.l1 < 512 && p.l0 < 512
    ensures VpnOf(p) == v
  {
    Path(v / 0x4_0000, v / 512 % 512, v % 512)
  }

  function VpnOf(p: Path): nat {
    p.l2 * 0x4_0000 + p.l1 * 512 + p.l0
  }

  lemma PathIsOnto(p: Path)
    requires p.l2 < 512 && p.l1 < 512 && p.l0 < 512
    ensures VpnOf(p) < NVPN && PathOf(VpnOf(p)) == p
  {
    var v := VpnOf(p);
    assert v % 512 == p.l0 && v / 512 == p.l2 * 512 + p.l1;
    assert v / 512 % 512 == p.l1;
    assert v / 0x4_0000 == p.l2;
  }

  /** PX at each level gives the path of the page that holds va. */
  lemma PxIsPath(va: nat)
    requires va < MAXVA
    ensures va / PGSIZE < NVPN
    ensures PathOf(va / PGSIZE) == Path(PX(2, va), PX(1, va), PX(0, va))
  {
    var v := va / PGSIZE;
    assert va / 0x20_0000 == v / 512;
    assert va / 0x4000_0000 == v / 0x4_0000 < 256;
  }

  /** A decoded entry: the five permission bits xv6 uses and the physical page number. */
  datatype Pte = Pte(v: bool, r: bool, w: bool, x: bool, u: bool, ppn: nat)

  const ZERO: Pte := Pte(false, false, false, false, false, 0)

  /** An entry with any of R, W, X maps a page; a valid one with none points to a table. */
  predicate Leafy(e: Pte) {
    e.r || e.w || e.x
  }

  function Pointer(ppn: nat): Pte {
    Pte(true, false, false, false, false, ppn)
  }

  function Bit(b: bool, weight: nat): nat {
    if b then weight else 0
  }

  /** The 64-bit word of an entry: PA2PTE(pa) | flags. */
  function Word(e: Pte): (w: nat) {
    e.ppn * 1024 + Bit(e.u, 16) + Bit(e.x, 8) + Bit(e.w, 4) + Bit(e.r, 2) + Bit(e.v, 1)
  }

  function Pa2Pte(pa: nat): nat {
    pa / 4096 * 1024
  }

  function Pte2Pa(w: nat): nat {
    w / 1024 * 4096
  }

  function PteFlags(w: nat): nat {
    w % 1024
  }

  function Decode(w: nat): Pte {
    var r := w / 2;
    var wr := r / 2;
    var x := wr / 2;
    var u := x / 2;
    Pte(w % 2 == 1, r % 2 == 1, wr % 2 == 1, x % 2 == 1, u % 2 == 1, w / 1024)
  }

  /** The low bit and the rest of a word. */
  lemma LowBit(q: nat, b: bool)
    ensures (2 * q + Bit(b, 1)) % 2 == Bit(b, 1) && (2 * q + Bit(b, 1)) / 2 == q
  {
  }

  lemma WordParts(e: Pte)
    ensures Word(e) / 1024 == e.ppn && PteFlags(Word(e)) + Pa2Pte(e.ppn * PGSIZE) == Word(e)
  {
    var f := Word(e) - e.ppn * 1024;
    assert 0 <= f < 32;
  }

  function Pack(q: nat, b: bool): nat {
    2 * q + Bit(b, 1)
  }

  lemma UnpackBits(q: nat, u: bool, x: bool, w: bool, r: bool, v: bool)
    ensures var d := Decode(Pack(Pack(Pack(Pack(Pack(q, u), x), w), r), v));
            d.v == v && d.r == r && d.w == w && d.x == x && d.u == u
  {
    LowBit(q, u);
    LowBit(Pack(q, u), x);
    LowBit(Pack(Pack(q, u), x), w);
    LowBit(Pack(Pack(Pack(q, u), x), w), r);
    LowBit(Pack(Pack(Pack(Pack(q, u), x), w), r), v);
  }

  /** The word of an entry gives back its page, its flags and the entry itself. */
  lemma WordRoundTrip(e: Pte)
    ensures Decode(Word(e)) == e
    ensures Pte2Pa(Word(e)) == e.ppn * PGSIZE
    ensures PteFlags(Word(e)) + Pa2Pte(e.ppn * PGSIZE) == Word(e)
  {
    WordParts(e);
    assert Word(e) == Pack(Pack(Pack(Pack(Pack(e.ppn * 32, e.u), e.x), e.w), e.r), e.v);
    UnpackBits(e.ppn * 32, e.u, e.x, e.w, e.r, e.v);
  }

  /** The shifts of the macros on 64-bit words lose nothing for an aligned address below 2^56. */
  lemma ShiftsLoseNothing(pa: bv64, flags: bv64)
    requires pa & 0xfff == 0 && pa >> 56 == 0 && flags >> 10 == 0
    ensures ((((pa >> 12) << 10) | flags) >> 10) << 12 == pa
    ensures (((pa >> 12) << 10) | flags) & 0x3ff == flags
  {
  }
}

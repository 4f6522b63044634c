/**
 User address spaces (vm.c): growing, shrinking, copying and mirroring a table's user pages.
 */
module UserMemory {
  import opened Riscv
  import opened PageTable

  /** What a new user page holds and how it is mapped. */
  datatype Image = Image(bytes: seq<bv8>, perm: Perm)
  type Images = seq<Image>

  const URWX: Perm := Perm(true, true, true, true)

  function Zeros(): (z: seq<bv8>)
    ensures |z| == PGSIZE && forall i: nat :: i < PGSIZE ==> z[i] == 0
  {
    seq(PGSIZE, _ => 0)
  }

  predicate Same(flat: Flat, flat': Flat, k: At) {
    (k in flat <==> k in flat') && (k in flat ==> flat'[k] == flat[k])
  }

  /** What a page allocated for pages v .. v+n of table t may be used for. */
  predicate Serves(u: Use, t: nat, v: nat, n: nat) {
    match u
    case Mid(r, _) => r == t
    case Low(r, _, _) => r == t
    case Frame(r, w) => r == t && v <= w < v + n
    case _ => false
  }

  /** Page w of t is backed by a frame of its own that holds the image. */
  predicate Holds(x: World, t: nat, w: nat, img: Image) {
    && At(t, w) in x.flat
    && var p := x.flat[At(t, w)].ppn;
       && x.flat[At(t, w)] == MakePte(p, img.perm)
       && p in x.use && x.use[p] == Frame(t, w) && p in x.data && x.data[p] == img.bytes
  }

  /** Old uses, bytes and pages are kept; new pages were free before, and serve v .. v+n of t. */
  ghost predicate Adds(w: World, x: World, t: nat, v: nat, n: nat) {
    && (forall p: nat :: p in w.use ==> p in x.use && x.use[p] == w.use[p])
    && (forall p: nat :: p in x.use && p !in w.use ==> Serves(x.use[p], t, v, n) && p in w.free)
    && (forall p: nat :: p in w.data ==> p in x.data && x.data[p] == w.data[p])
    && (forall p: nat :: p in x.free || p in x.use <==> p in w.free || p in w.use) && x.free <= w.free
  }

  /** From w to x, pages v .. v+n of t came to hold their images in frames that were free before;
      nothing else that was mapped, stored or allocated changed. */
  ghost predicate Grown(w: World, x: World, t: nat, v: nat, n: nat, img: Images) {
    && Adds(w, x, t, v, n)
    && (forall k: At :: !(k.t == t && v <= k.v < v + n) ==> Same(w.flat, x.flat, k))
    && n <= |img| && (forall i: nat :: i < n ==> Holds(x, t, v + i, img[i]))
  }

  lemma NotGrown(w: World, t: nat, v: nat, img: Images)
    ensures Grown(w, w, t, v, 0, img)
  {
  }

  lemma MappedOne(flat: Flat, flat': Flat, t: nat, v: nat, n: nat, ppn: nat, perm: Perm)
    requires Mapped(flat, flat', t, v, n, ppn, perm) && n <= 1
    ensures flat' == if n == 1 then Put(flat, t, v, MakePte(ppn, perm)) else flat
  {
    assert forall k: At :: k.t == t && v <= k.v < v + 1 ==> k == At(t, v);
    assert n == 1 ==> flat'[At(t, v)] == MakePte(ppn, perm);
  }

  /** One more page, with its tables. */
  lemma GrownStep(w: World, x: World, y: World, t: nat, v: nat, n: nat, p: nat, img: Images)
    requires Grown(w, x, t, v, n, img) && At(t, v + n) !in w.flat && n < |img|
    requires p in x.free && p !in x.use && y.flat == Put(x.flat, t, v + n, MakePte(p, img[n].perm))
    requires y.data == x.data[p := img[n].bytes] && p !in x.data
    requires OnlyTables(x.use[p := Frame(t, v + n)], x.free - {p}, y.use, y.free, t)
    ensures Grown(w, y, t, v, n + 1, img)
  {
    forall k: At | !(k.t == t && v <= k.v < v + n + 1) ensures Same(w.flat, y.flat, k) {
      assert Same(w.flat, x.flat, k);
    }
    forall i: nat | i < n + 1 ensures Holds(y, t, v + i, img[i]) {
      if i < n {
        assert Holds(x, t, v + i, img[i]);
      }
    }
  }

  /** Tables made on the way to a failure. */
  lemma GrownTables(w: World, x: World, y: World, t: nat, v: nat, n: nat, img: Images)
    requires Grown(w, x, t, v, n, img) && y.flat == x.flat && y.data == x.data && OnlyTables(x.use, x.free, y.use, y.free, t)
    ensures Grown(w, y, t, v, n, img)
  {
    forall k: At | !(k.t == t && v <= k.v < v + n) ensures Same(w.flat, y.flat, k) {
      assert Same(w.flat, x.flat, k);
    }
    forall i: nat | i < n ensures Holds(y, t, v + i, img[i]) {
      assert Holds(x, t, v + i, img[i]);
    }
  }

  /** From w to x the places `need` of t got table pages, and k more pages were taken. */
  ghost predicate Paid(w: World, x: World, t: nat, need: set<Slot>, k: nat) {
    forall i: nat :: CostKey(i) ==> Cost(Slots(w.use, t), |w.free|, Slots(x.use, t), |x.free| + k, need)
  }

  lemma PaidMeans(w: World, x: World, t: nat, need: set<Slot>, k: nat)
    requires Paid(w, x, t, need, k)
    ensures Cost(Slots(w.use, t), |w.free|, Slots(x.use, t), |x.free| + k, need)
  {
    assert CostKey(0);
  }

  /** The free pages it takes to give pages v .. v+n of t a frame each, with their tables. */
  ghost function GrowNeed(use: Uses, t: nat, v: nat, n: nat): nat {
    n + |Lacking(use, t, v, n)|
  }

  /** Pages other than table pages of t do not matter to t's places. */
  lemma SlotsSame(use: Uses, use': Uses, t: nat)
    requires forall p: nat :: (p in use && (use[p].Mid? || use[p].Low?) && use[p].t == t) <==> (p in use' && (use'[p].Mid? || use'[p].Low?) && use'[p].t == t)
    requires forall p: nat :: p in use && p in use' && (use[p].Mid? || use[p].Low?) && use[p].t == t ==> use'[p] == use[p]
    ensures Slots(use', t) == Slots(use, t)
  {
    forall s: Slot ensures s in Slots(use', t) <==> s in Slots(use, t) {
      InSlots(use, t, s);
      InSlots(use', t, s);
      if p: nat :| HasSlot(use, t, p, s) {
        assert HasSlot(use', t, p, s);
      }
      if p: nat :| HasSlot(use', t, p, s) {
        assert HasSlot(use, t, p, s);
      }
    }
  }

  lemma PaidNone(w: World, t: nat, v: nat)
    ensures Paid(w, w, t, Lacking(w.use, t, v, 0), 0)
  {
    SpentNone(w.use, w.free, t, v);
    SpentMeans(w.use, w.free, w.use, w.free, t, Lacking(w.use, t, v, 0));
  }

  lemma PaidLeft(w: World, x: World, t: nat, need: set<Slot>, n: nat)
    requires Paid(w, x, t, need, n)
    ensures n + |x.free| + |need| == |w.free| && (x.free != {} ==> n < |w.free|)
  {
    PaidMeans(w, x, t, need, n);
  }

  lemma PaidStep(w: World, x: World, y: World, t: nat, v: nat, n: nat, k: nat, j: nat)
    requires Paid(w, x, t, Lacking(w.use, t, v, n), k) && Paid(x, y, t, Lacking(x.use, t, v + n, 1), j)
    ensures Paid(w, y, t, Lacking(w.use, t, v, n + 1), k + j)
  {
    var need, more := Lacking(w.use, t, v, n), Lacking(x.use, t, v + n, 1);
    PaidMeans(w, x, t, need, k);
    assert Paid(w, y, t, need + more, k + j) by {
      PaidMeans(x, y, t, more, j);
      CostMore(Slots(w.use, t), |w.free|, Slots(x.use, t), |x.free| + k, Slots(y.use, t), |y.free| + k + j, need, more);
    }
    assert Lacking(w.use, t, v, n + 1) == need + more by {
      LackingStep(w.use, x.use, t, v, n);
    }
  }

  /** When the page after n pages cannot be paid, neither can any range that goes on to it. */
  lemma CannotGrow(w: World, x: World, t: nat, v: nat, n: nat, k: nat)
    requires Paid(w, x, t, Lacking(w.use, t, v, n), n) && n < k && |x.free| < 1 + |Lacking(x.use, t, v + n, 1)|
    ensures |w.free| < GrowNeed(w.use, t, v, k)
  {
    var need, more := Lacking(w.use, t, v, n), Lacking(x.use, t, v + n, 1);
    PaidMeans(w, x, t, need, n);
    assert |need + more| == |need| + |more| by {
      LackingIs(x.use, t, v + n, 1);
      assert need !! more;
    }
    assert Lacking(w.use, t, v, n + 1) == need + more by {
      LackingStep(w.use, x.use, t, v, n);
    }
    LackingGrows(w.use, t, v, n + 1, k);
  }

  lemma TablesAfterFree(use: Uses, free: set<nat>, use': Uses, free': set<nat>, t: nat, p: nat)
    requires p in free && p !in use && OnlyTables(use[p := Other], free - {p}, use', free', t)
    ensures p in use' && use'[p] == Other && OnlyTables(use, free, use' - {p}, free' + {p}, t)
  {
  }

  lemma TablesAfterReuse(use: Uses, free: set<nat>, use': Uses, free': set<nat>, t: nat, p: nat, u: Use)
    requires p in free && p !in use && OnlyTables(use[p := Other], free - {p}, use', free', t)
    ensures p in use' && use'[p] == Other && OnlyTables(use[p := u], free - {p}, use'[p := u], free', t)
  {
  }

  lemma Overwrite(data: Bytes, p: nat, junk: seq<bv8>, bytes: seq<bv8>)
    requires p !in data
    ensures data[p := junk][p := bytes] == data[p := bytes] && data[p := bytes] - {p} == data
  {
  }

  /** mappages of the one page v. */
  method MapPage(m: Memory, t: nat, a: nat, ppn: nat, perm: Perm, ghost v: nat) returns (ok: bool)
    requires m.Valid() && IsRoot(m.use, t) && a == v * PGSIZE && a < MAXVA && At(t, v) !in m.flat && ppn > 0 && MapsPage(perm)
    modifies m
    ensures m.Valid() && m.data == old(m.data) && OnlyTables(old(m.use), old(m.free), m.use, m.free, t)
    ensures m.flat == if ok then Put(old(m.flat), t, v, MakePte(ppn, perm)) else old(m.flat)
    ensures ok <==> |old(m.free)| >= |Lacking(old(m.use), t, v, 1)|
    ensures ok ==> Spent(old(m.use), old(m.free), m.use, m.free, t, Lacking(old(m.use), t, v, 1))
  {
    VpnShift(0, v);
    VpnShift(0, ppn);
    ghost var n;
    assert Vpn(a + PGSIZE - 1) == v;
    ok, n := m.Mappages(t, a, PGSIZE, ppn * PGSIZE, perm);
    MappedOne(old(m.flat), m.flat, t, v, n, ppn, perm);
  }

  /** From x to y page v of t got frame p, or it failed; besides that only table pages came. */
  ghost predicate OnePage(x: World, y: World, t: nat, v: nat, p: nat, ok: bool, img: Image) {
    if ok then
      && p in x.free && p !in x.use && p !in x.data && y.flat == Put(x.flat, t, v, MakePte(p, img.perm))
      && y.data == x.data[p := img.bytes] && OnlyTables(x.use[p := Frame(t, v)], x.free - {p}, y.use, y.free, t)
    else
      y.flat == x.flat && y.data == x.data && OnlyTables(x.use, x.free, y.use, y.free, t)
  }

  /** Kalloc, fill, map: page v of t gets a frame of its own, or nothing but table pages changed. */
  method GrowOne(m: Memory, t: nat, a: nat, bytes: seq<bv8>, perm: Perm, ghost v: nat) returns (ok: bool, ghost p: nat)
    requires m.Valid() && IsRoot(m.use, t) && a == v * PGSIZE && |bytes| == PGSIZE && MapsPage(perm)
    requires m.free != {} ==> a < MAXVA && At(t, v) !in m.flat
    modifies m
    ensures m.Valid() && IsRoot(m.use, t)
    ensures OnePage(old(m.Now()), m.Now(), t, v, p, ok, Image(bytes, perm))
    ensures ok <==> |old(m.free)| >= GrowNeed(old(m.use), t, v, 1)
    ensures ok ==> Paid(old(m.Now()), m.Now(), t, Lacking(old(m.use), t, v, 1), 1)
  {
    var mem := m.Kalloc();
    p := mem;
    if mem == 0 {
      return false, p;
    }
    assert Slots(m.use, t) == Slots(old(m.use), t) by {
      SlotsSame(old(m.use), m.use, t);
    }
    assert Lacking(m.use, t, v, 1) == Lacking(old(m.use), t, v, 1) by {
      LackingIs(m.use, t, v, 1);
      LackingIs(old(m.use), t, v, 1);
    }
    ghost var use1, free1 := m.use, m.free;
    Overwrite(old(m.data), mem, m.data[mem], bytes);
    m.SetPage(mem, bytes);
    assert m.data == old(m.data)[mem := bytes];
    ok := MapPage(m, t, a, mem, perm, v);
    if !ok {
      TablesAfterFree(old(m.use), old(m.free), m.use, m.free, t, p);
      m.Kfree(mem);
    } else {
      TablesAfterReuse(old(m.use), old(m.free), m.use, m.free, t, p, Frame(t, v));
      assert Slots(m.use[mem := Frame(t, v)], t) == Slots(m.use, t) by {
        SlotsSame(m.use, m.use[mem := Frame(t, v)], t);
      }
      SpentMeans(use1, free1, m.use, m.free, t, Lacking(use1, t, v, 1));
      m.Reuse(mem, Frame(t, v));
    }
  }

  /** The same round when n of k pages from v on have been added since w. */
  method GrowNext(m: Memory, t: nat, a: nat, bytes: seq<bv8>, perm: Perm, ghost v: nat, ghost n: nat, ghost k: nat, ghost w: World, ghost img: Images)
    returns (ok: bool)
    requires m.Valid() && IsRoot(m.use, t) && a == (v + n) * PGSIZE && |bytes| == PGSIZE && MapsPage(perm) && n < k
    requires Grown(w, m.Now(), t, v, n, img) && Paid(w, m.Now(), t, Lacking(w.use, t, v, n), n) && n < |img| && img[n] == Image(bytes, perm)
    requires m.free != {} ==> a < MAXVA && At(t, v + n) !in w.flat
    modifies m
    ensures m.Valid() && IsRoot(m.use, t) && Grown(w, m.Now(), t, v, if ok then n + 1 else n, img)
    ensures ok ==> Paid(w, m.Now(), t, Lacking(w.use, t, v, n + 1), n + 1)
    ensures !ok ==> |w.free| < GrowNeed(w.use, t, v, k)
  {
    ghost var x := m.Now();
    ghost var p;
    StillUnmapped(w, x, t, v, n, img);
    ok, p := GrowOne(m, t, a, bytes, perm, v + n);
    assert Grown(w, m.Now(), t, v, if ok then n + 1 else n, img) by {
      GrownMaybe(w, x, m.Now(), t, v, n, p, ok, img);
    }
    if ok {
      assert Paid(w, m.Now(), t, Lacking(w.use, t, v, n + 1), n + 1) by {
        PaidStep(w, x, m.Now(), t, v, n, n, 1);
      }
    } else {
      assert |w.free| < GrowNeed(w.use, t, v, k) by {
        CannotGrow(w, x, t, v, n, k);
      }
    }
  }

  lemma StillUnmapped(w: World, x: World, t: nat, v: nat, n: nat, img: Images)
    requires Grown(w, x, t, v, n, img)
    ensures At(t, v + n) in x.flat <==> At(t, v + n) in w.flat
  {
    assert Same(w.flat, x.flat, At(t, v + n));
  }

  /** GrowOne's outcome, as a step of growing. */
  lemma GrownMaybe(w: World, x: World, y: World, t: nat, v: nat, n: nat, p: nat, ok: bool, img: Images)
    requires Grown(w, x, t, v, n, img) && n < |img|
    requires OnePage(x, y, t, v + n, p, ok, img[n]) && (ok ==> At(t, v + n) !in w.flat)
    ensures Grown(w, y, t, v, if ok then n + 1 else n, img)
  {
    if ok {
      GrownStep(w, x, y, t, v, n, p, img);
    } else {
      GrownTables(w, x, y, t, v, n, img);
    }
  }

  /** Growing and then shrinking back leaves mappings and data as they were, with at most
      table pages added. */
  lemma Undo(w: World, x: World, y: World, t: nat, v: nat, n: nat, img: Images)
    requires Stored(w) && Stored(x) && Grown(w, x, t, v, n, img) && Shrunk(x, y, t, v, n)
    requires forall i: nat :: v <= i < v + n ==> At(t, i) !in w.flat
    ensures y.flat == w.flat && y.data == w.data && OnlyTables(w.use, w.free, y.use, y.free, t)
  {
    forall k: At ensures Same(y.flat, w.flat, k) {
      if !(k.t == t && v <= k.v < v + n) {
        assert Same(w.flat, x.flat, k);
      } else {
        assert k == At(t, k.v);
      }
    }
    AllSame(y.flat, w.flat);
    forall p: nat | p in w.use ensures p !in Frames(x.use, t, v, n) {
      assert FrameOk(w.use, w.flat, p);
    }
  }

  lemma AllSame(flat: Flat, flat': Flat)
    requires forall k: At :: Same(flat, flat', k)
    ensures flat == flat'
  {
    forall k: At ensures (k in flat <==> k in flat') && (k in flat ==> flat[k] == flat'[k]) {
      assert Same(flat, flat', k);
    }
  }

  lemma GrownIsBacked(w: World, x: World, t: nat, v: nat, n: nat, img: Images)
    requires Grown(w, x, t, v, n, img)
    ensures Backed(x.use, x.flat, t, v, n)
  {
    forall i: nat | v <= i < v + n
      ensures At(t, i) in x.flat && x.flat[At(t, i)].ppn in x.use && x.use[x.flat[At(t, i)].ppn] == Frame(t, i)
    {
      assert Holds(x, t, v + (i - v), img[i - v]);
    }
  }

  /** uvmdealloc (vm.c:332-343). */
  method Uvmdealloc(m: Memory, t: nat, oldsz: nat, newsz: nat) returns (r: nat)
    requires m.Valid() && IsRoot(m.use, t) && PgRoundUp(oldsz) <= MAXVA
    requires newsz < oldsz ==> Backed(m.use, m.flat, t, Pages(newsz), Pages(oldsz) - Pages(newsz))
    modifies m
    ensures m.Valid() && r == (if newsz < oldsz then newsz else oldsz)
    ensures newsz >= oldsz ==> m.Now() == old(m.Now())
    ensures newsz < oldsz ==> Shrunk(old(m.Now()), m.Now(), t, Pages(newsz), Pages(oldsz) - Pages(newsz))
  {
    if newsz >= oldsz {
      return oldsz;
    }
    PagesGrow(newsz, oldsz);
    if PgRoundUp(newsz) < PgRoundUp(oldsz) {
      var npages := (PgRoundUp(oldsz) - PgRoundUp(newsz)) / PGSIZE;
      m.UvmunmapFree(t, PgRoundUp(newsz), npages);
    }
    r := newsz;
  }

  lemma PagesGrow(a: nat, b: nat)
    requires a <= b
    ensures Pages(a) <= Pages(b) && (PgRoundUp(b) - PgRoundUp(a)) / PGSIZE == Pages(b) - Pages(a) && Vpn(PgRoundUp(a)) == Pages(a)
  {
  }

  ghost function Zeroed(n: nat): (img: Images)
    ensures |img| == n && (forall i :: 0 <= i < n ==> img[i] == Image(Zeros(), URWX))
  {
    if n == 0 then [] else Zeroed(n - 1) + [Image(Zeros(), URWX)]
  }

  /** Every page the call can get to is below MAXVA and unmapped: no more pages than are free. */
  ghost predicate Room(w: World, t: nat, v: nat, n: nat) {
    forall i: nat :: v <= i < v + n && i < v + |w.free| ==> i * PGSIZE < MAXVA && At(t, i) !in w.flat
  }

  lemma RoomBelow(w: World, t: nat, v: nat, k: nat, n: nat)
    requires Room(w, t, v, k) && n <= k && n <= |w.free| && v * PGSIZE <= MAXVA
    ensures (v + n) * PGSIZE <= MAXVA && forall i: nat :: v <= i < v + n ==> At(t, i) !in w.flat
    ensures n < k && n < |w.free| ==> (v + n) * PGSIZE < MAXVA && At(t, v + n) !in w.flat
  {
    if n > 0 {
      assert At(t, v + n - 1) !in w.flat;
    }
  }

  /** Either pages v .. v+n of t came to hold their images, or no mapping and no data changed. */
  ghost predicate AllOrNothing(w: World, x: World, t: nat, v: nat, n: nat, img: Images, ok: bool) {
    if ok then Grown(w, x, t, v, n, img)
    else x.flat == w.flat && x.data == w.data && OnlyTables(w.use, w.free, x.use, x.free, t)
  }

  /** uvmalloc (vm.c:284-307): all of the pages, zeroed, or none; all of them exactly when there
      are enough free pages for them and the tables they lack. */
  method Uvmalloc(m: Memory, t: nat, oldsz: nat, newsz: nat) returns (r: nat)
    requires m.Valid() && IsRoot(m.use, t) && PgRoundUp(oldsz) <= MAXVA
    requires newsz >= oldsz ==> Room(m.Now(), t, Pages(oldsz), Pages(newsz) - Pages(oldsz))
    modifies m
    ensures m.Valid() && IsRoot(m.use, t)
    ensures newsz < oldsz ==> r == oldsz && m.Now() == old(m.Now())
    ensures newsz >= oldsz ==> r == newsz || r == 0
    ensures newsz >= oldsz ==>
              var n := Pages(newsz) - Pages(oldsz); AllOrNothing(old(m.Now()), m.Now(), t, Pages(oldsz), n, Zeroed(n), r == newsz)
    ensures newsz >= oldsz ==> Pages(oldsz) <= Pages(newsz)
    ensures newsz >= oldsz ==> (r == newsz <==> |old(m.free)| >= GrowNeed(old(m.use), t, Pages(oldsz), Pages(newsz) - Pages(oldsz)))
    ensures newsz >= oldsz && r == newsz ==>
              var n := Pages(newsz) - Pages(oldsz); Paid(old(m.Now()), m.Now(), t, Lacking(old(m.use), t, Pages(oldsz), n), n)
  {
    if newsz < oldsz {
      return oldsz;
    }
    PagesGrow(oldsz, newsz);
    var ok := GrowZeroed(m, t, PgRoundUp(oldsz), newsz, Pages(oldsz), Pages(newsz) - Pages(oldsz));
    r := if ok then newsz else 0;
  }

  /** The loop of uvmalloc. */
  method GrowZeroed(m: Memory, t: nat, start: nat, newsz: nat, ghost v: nat, ghost k: nat) returns (ok: bool)
    requires m.Valid() && IsRoot(m.use, t) && start == v * PGSIZE <= MAXVA && Room(m.Now(), t, v, k) && v + k == Pages(newsz)
    modifies m
    ensures m.Valid() && IsRoot(m.use, t) && AllOrNothing(old(m.Now()), m.Now(), t, v, k, Zeroed(k), ok) && (k == 0 ==> ok)
    ensures ok ==> Paid(old(m.Now()), m.Now(), t, Lacking(old(m.use), t, v, k), k)
    ensures ok <==> |old(m.free)| >= GrowNeed(old(m.use), t, v, k)
  {
    var a := start;
    ghost var n, w := 0, m.Now();
    NotGrown(w, t, v, Zeroed(k));
    PaidNone(w, t, v);
    SoundIsStored(m);
    ok := true;
    while a < newsz
      invariant a == (v + n) * PGSIZE && n <= k && m.Valid() && IsRoot(m.use, t)
      invariant Grown(w, m.Now(), t, v, n, Zeroed(k)) && Paid(w, m.Now(), t, Lacking(w.use, t, v, n), n)
      decreases k - n
    {
      Within(newsz, a, v, n);
      ok := ZeroNext(m, t, a, start, v, n, k, w);
      if !ok {
        return;
      }
      a, n := a + PGSIZE, n + 1;
    }
    Covered(newsz, a, v, n);
    assert |w.free| >= GrowNeed(w.use, t, v, k) by {
      PaidLeft(w, m.Now(), t, Lacking(w.use, t, v, k), k);
    }
  }

  /** One round of uvmalloc, with its failure exit. */
  method ZeroNext(m: Memory, t: nat, a: nat, start: nat, ghost v: nat, ghost n: nat, ghost k: nat, ghost w: World) returns (ok: bool)
    requires m.Valid() && IsRoot(m.use, t) && start == v * PGSIZE <= MAXVA && a == (v + n) * PGSIZE && n < k
    requires Grown(w, m.Now(), t, v, n, Zeroed(k)) && Paid(w, m.Now(), t, Lacking(w.use, t, v, n), n) && Room(w, t, v, k) && Stored(w)
    modifies m
    ensures m.Valid() && IsRoot(m.use, t)
    ensures if ok then Grown(w, m.Now(), t, v, n + 1, Zeroed(k)) && Paid(w, m.Now(), t, Lacking(w.use, t, v, n + 1), n + 1)
            else AllOrNothing(w, m.Now(), t, v, k, Zeroed(k), false) && |w.free| < GrowNeed(w.use, t, v, k)
  {
    PaidLeft(w, m.Now(), t, Lacking(w.use, t, v, n), n);
    RoomBelow(w, t, v, k, n);
    ok := GrowNext(m, t, a, Zeros(), URWX, v, n, k, w, Zeroed(k));
    if !ok {
      DeallocBack(m, t, a, start, v, n, w, Zeroed(k));
    }
  }

  /** The address below newsz of page v + n is in newsz's pages. */
  lemma Within(newsz: nat, a: nat, v: nat, n: nat)
    requires a == (v + n) * PGSIZE && a < newsz
    ensures v + n < Pages(newsz)
  {
  }

  lemma Covered(newsz: nat, a: nat, v: nat, n: nat)
    requires a == (v + n) * PGSIZE && newsz <= a && v + n <= Pages(newsz)
    ensures v + n == Pages(newsz)
  {
  }

  lemma SoundIsStored(m: Memory)
    requires m.Valid()
    ensures Stored(m.Now())
  {
    m.Open();
  }

  lemma WholePages(k: nat)
    ensures Pages(k * PGSIZE) == k && PgRoundUp(k * PGSIZE) == k * PGSIZE
  {
  }

  /** The failure exits of uvmalloc: uvmdealloc of what was added since w. */
  method DeallocBack(m: Memory, t: nat, a: nat, start: nat, ghost v: nat, ghost n: nat, ghost w: World, ghost img: Images)
    requires m.Valid() && IsRoot(m.use, t) && start == v * PGSIZE && a == (v + n) * PGSIZE <= MAXVA
    requires Grown(w, m.Now(), t, v, n, img) && Stored(w) && forall i: nat :: v <= i < v + n ==> At(t, i) !in w.flat
    modifies m
    ensures m.Valid() && IsRoot(m.use, t)
    ensures m.flat == w.flat && m.data == w.data && OnlyTables(w.use, w.free, m.use, m.free, t)
  {
    GrownIsBacked(w, m.Now(), t, v, n, img);
    ghost var x := m.Now();
    WholePages(v);
    WholePages(v + n);
    SoundIsStored(m);
    var _ := Uvmdealloc(m, t, a, start);
    assert Shrunk(x, m.Now(), t, v, n) by {
      if n == 0 {
        assert Frames(x.use, t, v, 0) == {};
      }
    }
    Undo(w, x, m.Now(), t, v, n, img);
  }

  /** The failure exit of uvmcopy: what was added since w is unmapped again. */
  method ShrinkBack(m: Memory, t: nat, a: nat, start: nat, ghost v: nat, ghost n: nat, ghost w: World, ghost img: Images)
    requires m.Valid() && IsRoot(m.use, t) && start == v * PGSIZE && a == (v + n) * PGSIZE <= MAXVA
    requires Grown(w, m.Now(), t, v, n, img) && Stored(w) && forall i: nat :: v <= i < v + n ==> At(t, i) !in w.flat
    modifies m
    ensures m.Valid() && IsRoot(m.use, t)
    ensures m.flat == w.flat && m.data == w.data && OnlyTables(w.use, w.free, m.use, m.free, t)
  {
    GrownIsBacked(w, m.Now(), t, v, n, img);
    var npages := (a - start) / PGSIZE;
    ghost var x := m.Now();
    VpnShift(0, v);
    assert npages == n;
    SoundIsStored(m);
    m.UvmunmapFree(t, start, npages);
    Undo(w, x, m.Now(), t, v, n, img);
  }

  function PermOf(e: Pte): Perm {
    Perm(e.r, e.w, e.x, e.u)
  }

  /** The first n pages of table t. */
  ghost function PageImages(w: World, t: nat, n: nat): (img: Images)
    requires forall i: nat :: i < n ==> Present(w, t, i)
    ensures |img| == n
    ensures forall i: nat :: i < n ==> img[i] == ImageOf(w, t, i)
  {
    if n == 0 then [] else PageImages(w, t, n - 1) + [ImageOf(w, t, n - 1)]
  }

  /** Page i of t is mapped to a stored page. */
  predicate Present(w: World, t: nat, i: nat) {
    At(t, i) in w.flat && w.flat[At(t, i)].ppn in w.data && |w.data[w.flat[At(t, i)].ppn]| == PGSIZE && Leafy(w.flat[At(t, i)])
  }

  ghost function ImageOf(w: World, t: nat, i: nat): Image
    requires Present(w, t, i)
  {
    Image(w.data[w.flat[At(t, i)].ppn], PermOf(w.flat[At(t, i)]))
  }

  /** Read page i of the parent, which growing another table has not changed. */
  method ReadPage(m: Memory, t: nat, a: nat, ghost i: nat, ghost w: World, ghost u: nat, ghost n: nat, ghost img: Images)
    returns (bytes: seq<bv8>, perm: Perm)
    requires m.Valid() && IsRoot(m.use, t) && a == i * PGSIZE < MAXVA && Present(w, t, i) && u != t && Grown(w, m.Now(), u, 0, n, img)
    modifies m
    ensures m.Valid() && m.Now() == old(m.Now()) && Image(bytes, perm) == ImageOf(w, t, i)
  {
    VpnShift(0, i);
    assert Same(w.flat, m.flat, At(t, i));
    var found, e := m.Lookup(t, a);
    bytes, perm := m.data[e.ppn], PermOf(e);
  }

  /** uvmcopy (vm.c:452-479): the child holds the parent's pages, bytes and flags, in frames of
      its own, or nothing changed but for table pages of the child. */
  method Uvmcopy(m: Memory, t: nat, u: nat, sz: nat) returns (ok: bool)
    requires m.Valid() && IsRoot(m.use, t) && IsRoot(m.use, u) && t != u && Pages(sz) * PGSIZE <= MAXVA
    requires forall i: nat :: i < Pages(sz) ==> Present(m.Now(), t, i) && At(u, i) !in m.flat
    modifies m
    ensures m.Valid() && IsRoot(m.use, t) && IsRoot(m.use, u)
    ensures AllOrNothing(old(m.Now()), m.Now(), u, 0, Pages(sz), PageImages(old(m.Now()), t, Pages(sz)), ok)
    ensures ok <==> |old(m.free)| >= GrowNeed(old(m.use), u, 0, Pages(sz))
    ensures ok ==> Paid(old(m.Now()), m.Now(), u, Lacking(old(m.use), u, 0, Pages(sz)), Pages(sz))
  {
    var i := 0;
    ghost var n, k, w := 0, Pages(sz), m.Now();
    ghost var img := PageImages(w, t, k);
    NotGrown(w, u, 0, img);
    PaidNone(w, u, 0);
    SoundIsStored(m);
    ok := true;
    while i < sz
      invariant i == n * PGSIZE && n <= k && m.Valid() && IsRoot(m.use, u) && IsRoot(m.use, t)
      invariant Grown(w, m.Now(), u, 0, n, img) && Paid(w, m.Now(), u, Lacking(w.use, u, 0, n), n)
      decreases k - n
    {
      Within(sz, i, 0, n);
      assert Present(w, t, n);
      ok := CopyNext(m, t, u, i, n, k, w, img);
      if !ok {
        return;
      }
      i, n := i + PGSIZE, n + 1;
    }
    Covered(sz, i, 0, n);
    assert |w.free| >= GrowNeed(w.use, u, 0, k) by {
      PaidLeft(w, m.Now(), u, Lacking(w.use, u, 0, k), k);
    }
  }

  /** One round of uvmcopy, with its failure exit. */
  method CopyNext(m: Memory, t: nat, u: nat, i: nat, ghost n: nat, ghost k: nat, ghost w: World, ghost img: Images) returns (ok: bool)
    requires m.Valid() && IsRoot(m.use, t) && IsRoot(m.use, u) && t != u && i == n * PGSIZE < MAXVA
    requires Grown(w, m.Now(), u, 0, n, img) && Paid(w, m.Now(), u, Lacking(w.use, u, 0, n), n) && IsRoot(w.use, t) && Stored(w) && n < k
    requires Present(w, t, n) && n < |img| && img[n] == ImageOf(w, t, n) && forall j: nat :: j <= n ==> At(u, j) !in w.flat
    modifies m
    ensures m.Valid() && IsRoot(m.use, t) && IsRoot(m.use, u)
    ensures if ok then Grown(w, m.Now(), u, 0, n + 1, img) && Paid(w, m.Now(), u, Lacking(w.use, u, 0, n + 1), n + 1)
            else AllOrNothing(w, m.Now(), u, 0, k, img, false) && |w.free| < GrowNeed(w.use, u, 0, k)
  {
    var bytes, perm := ReadPage(m, t, i, n, w, u, n, img);
    ok := GrowNext(m, u, i, bytes, perm, 0, n, k, w, img);
    if !ok {
      ShrinkBack(m, u, i, 0, 0, n, w, img);
    }
  }

  // ---------------------------------------------------------------------------------------
  // The user half of a kernel table
  // ---------------------------------------------------------------------------------------

  /** An entry as the kernel table has it: all but U. */
  function NoUser(e: Pte): Pte {
    e.(u := false)
  }

  /** From w to x, pages v .. v+n of k came to map what t maps there, less U; nothing else that
      was mapped changed, and only table pages of k were allocated. */
  ghost predicate Mirrored(w: World, x: World, t: nat, k: nat, v: nat, n: nat) {
    && x.data == w.data && OnlyTables(w.use, w.free, x.use, x.free, k)
    && (forall a: At :: !(a.t == k && v <= a.v < v + n) ==> Same(w.flat, x.flat, a))
    && (forall i: nat :: v <= i < v + n ==>
          At(k, i) in x.flat && At(t, i) in w.flat && x.flat[At(k, i)] == NoUser(w.flat[At(t, i)]))
  }

  lemma MirroredStep(w: World, x: World, y: World, t: nat, k: nat, v: nat, n: nat, e: Pte, ok: bool)
    requires Mirrored(w, x, t, k, v, n) && t != k && At(t, v + n) in w.flat && At(k, v + n) !in w.flat && e == NoUser(w.flat[At(t, v + n)]) && e.v
    requires y.data == x.data && OnlyTables(x.use, x.free, y.use, y.free, k)
    requires y.flat == if ok then Put(x.flat, k, v + n, e) else x.flat
    ensures Mirrored(w, y, t, k, v, if ok then n + 1 else n)
  {
    forall a: At | !(a.t == k && v <= a.v < v + if ok then n + 1 else n) ensures Same(w.flat, y.flat, a) {
      assert Same(w.flat, x.flat, a);
    }
  }

  /** One round of kvmcopy, when n of j pages have been mirrored since w. */
  method MirrorNext(m: Memory, t: nat, k: nat, i: nat, ghost v: nat, ghost n: nat, ghost j: nat, ghost w: World) returns (ok: bool)
    requires m.Valid() && IsRoot(m.use, t) && IsRoot(m.use, k) && t != k && i == (v + n) * PGSIZE < MAXVA && n < j
    requires Mirrored(w, m.Now(), t, k, v, n) && At(t, v + n) in w.flat && At(k, v + n) !in w.flat
    requires Spent(w.use, w.free, m.use, m.free, k, Lacking(w.use, k, v, n))
    modifies m
    ensures m.Valid() && IsRoot(m.use, t) && IsRoot(m.use, k) && Mirrored(w, m.Now(), t, k, v, if ok then n + 1 else n)
    ensures ok ==> Spent(w.use, w.free, m.use, m.free, k, Lacking(w.use, k, v, n + 1))
    ensures !ok ==> |w.free| < |Lacking(w.use, k, v, j)|
  {
    ghost var x := m.Now();
    VpnShift(0, v + n);
    assert Same(w.flat, m.flat, At(t, v + n)) && Same(w.flat, m.flat, At(k, v + n));
    var found, e := m.Lookup(t, i);
    ok := MapPage(m, k, i, e.ppn, PermOf(NoUser(e)), v + n);
    assert Mirrored(w, m.Now(), t, k, v, if ok then n + 1 else n) by {
      MirroredStep(w, x, m.Now(), t, k, v, n, NoUser(e), ok);
    }
    if ok {
      assert Spent(w.use, w.free, m.use, m.free, k, Lacking(w.use, k, v, n + 1)) by {
        SpentStep(w.use, w.free, x.use, x.free, m.use, m.free, k, v, n);
      }
    } else {
      assert |w.free| < |Lacking(w.use, k, v, j)| by {
        CannotPay(w.use, w.free, x.use, x.free, k, v, n, j);
      }
    }
  }

  /** From w to x, the first n pages of k were unmapped, and at most table pages of k came. */
  ghost predicate Cut(w: World, x: World, k: nat, n: nat) {
    x.data == w.data && OnlyTables(w.use, w.free, x.use, x.free, k) && Unmapped(w.flat, x.flat, k, 0, n)
  }

  /** The failure exit unmaps from page 0 on, so that pages below v go as well. */
  lemma MirrorUndone(w: World, x: World, y: World, t: nat, k: nat, v: nat, n: nat)
    requires Mirrored(w, x, t, k, v, n) && forall i: nat :: v <= i < v + n ==> At(k, i) !in w.flat
    requires y.data == x.data && y.use == x.use && y.free == x.free && Unmapped(x.flat, y.flat, k, 0, v + n)
    ensures Cut(w, y, k, v)
  {
    forall a: At ensures (a in y.flat <==> a in w.flat && !(a.t == k && 0 <= a.v < 0 + v)) && (a in y.flat ==> y.flat[a] == w.flat[a]) {
      if !(a.t == k && v <= a.v < v + n) {
        assert Same(w.flat, x.flat, a);
      } else {
        assert a == At(k, a.v);
      }
    }
  }

  /** No page is the frame of a page of k. */
  ghost predicate NoFrames(use: Uses, k: nat) {
    forall q: nat :: q in use && use[q].Frame? ==> use[q].t != k
  }

  function Span(st: nat, sz: nat): nat {
    if Pages(st) <= Pages(sz) then Pages(sz) - Pages(st) else 0
  }

  /** kvmcopy (vm.c:487-513).  Pages st .. sz of t are mirrored in k; beyond PLIC it refuses; and
      when there are fewer free pages than k lacks tables, k has lost its pages below st, too. */
  method Kvmcopy(m: Memory, t: nat, k: nat, st: nat, sz: nat) returns (ok: bool)
    requires m.Valid() && IsRoot(m.use, t) && IsRoot(m.use, k) && t != k && NoFrames(m.use, k)
    requires sz <= PLIC ==> forall i: nat :: Pages(st) <= i < Pages(sz) ==> At(t, i) in m.flat && At(k, i) !in m.flat
    requires sz <= PLIC ==> forall i: nat :: i < Pages(st) ==> At(k, i) in m.flat
    modifies m
    ensures m.Valid() && IsRoot(m.use, t) && IsRoot(m.use, k)
    ensures ok ==> sz <= PLIC && Mirrored(old(m.Now()), m.Now(), t, k, Pages(st), Span(st, sz))
    ensures !ok && sz > PLIC ==> m.Now() == old(m.Now())
    ensures !ok && sz <= PLIC ==> Span(st, sz) > 0 && Cut(old(m.Now()), m.Now(), k, Pages(st))
    ensures sz <= PLIC ==> (ok <==> |old(m.free)| >= |Lacking(old(m.use), k, Pages(st), Span(st, sz))|)
    ensures ok ==> Spent(old(m.use), old(m.free), m.use, m.free, k, Lacking(old(m.use), k, Pages(st), Span(st, sz)))
  {
    if sz > PLIC {
      return false;
    }
    var start := PgRoundUp(st);
    var i := start;
    ghost var v, n, w := Pages(st), 0, m.Now();
    SpentNone(m.use, m.free, k, v);
    ok := true;
    while i < sz
      invariant i == (v + n) * PGSIZE && n <= Span(st, sz) && m.Valid() && IsRoot(m.use, t) && IsRoot(m.use, k)
      invariant Mirrored(w, m.Now(), t, k, v, n) && Spent(w.use, w.free, m.use, m.free, k, Lacking(w.use, k, v, n))
      decreases Span(st, sz) - n
    {
      Within(sz, i, v, n);
      ok := MirrorNext(m, t, k, i, v, n, Span(st, sz), w);
      if !ok {
        MirrorBack(m, t, k, i, v, n, w);
        return;
      }
      i, n := i + PGSIZE, n + 1;
    }
    SpanCovered(st, sz, n);
    SpentSize(w.use, w.free, m.use, m.free, k, Lacking(w.use, k, v, n));
  }

  lemma SpanCovered(st: nat, sz: nat, n: nat)
    requires n <= Span(st, sz) && sz <= (Pages(st) + n) * PGSIZE
    ensures n == Span(st, sz)
  {
  }

  /** The failure exit of kvmcopy. */
  method MirrorBack(m: Memory, ghost t: nat, k: nat, i: nat, ghost v: nat, ghost n: nat, ghost w: World)
    requires m.Valid() && IsRoot(m.use, t) && IsRoot(m.use, k) && i == (v + n) * PGSIZE < MAXVA && NoFrames(w.use, k)
    requires Mirrored(w, m.Now(), t, k, v, n)
    requires forall j: nat :: v <= j < v + n ==> At(k, j) !in w.flat
    requires forall j: nat :: j < v ==> At(k, j) in w.flat
    modifies m
    ensures m.Valid() && IsRoot(m.use, t) && IsRoot(m.use, k) && Cut(w, m.Now(), k, v)
  {
    ghost var x := m.Now();
    VpnShift(0, v + n);
    forall j: nat | j < v + n ensures At(k, j) in m.flat {
      assert Same(w.flat, m.flat, At(k, j)) || v <= j;
    }
    m.UvmunmapKeep(k, 0, Vpn(i));
    MirrorUndone(w, x, m.Now(), t, k, v, n);
  }

  /** kvmdealloc (vm.c:315-325): like uvmdealloc, but the pages are kept. */
  method Kvmdealloc(m: Memory, k: nat, oldsz: nat, newsz: nat) returns (r: nat)
    requires m.Valid() && IsRoot(m.use, k) && PgRoundUp(oldsz) <= MAXVA && NoFrames(m.use, k)
    requires forall i: nat :: Pages(newsz) <= i < Pages(oldsz) ==> At(k, i) in m.flat
    modifies m
    ensures m.Valid() && r == (if newsz < oldsz then newsz else oldsz)
    ensures m.data == old(m.data) && m.use == old(m.use) && m.free == old(m.free)
    ensures newsz >= oldsz ==> m.flat == old(m.flat)
    ensures newsz < oldsz ==> Unmapped(old(m.flat), m.flat, k, Pages(newsz), Span(newsz, oldsz))
  {
    if newsz >= oldsz {
      return oldsz;
    }
    PagesGrow(newsz, oldsz);
    if PgRoundUp(newsz) < PgRoundUp(oldsz) {
      var npages := (PgRoundUp(oldsz) - PgRoundUp(newsz)) / PGSIZE;
      m.UvmunmapKeep(k, PgRoundUp(newsz), npages);
    }
    r := newsz;
  }

  /** uvmclear (vm.c:518-526): the page loses its U bit. */
  method Uvmclear(m: Memory, t: nat, va: nat, ghost v: nat)
    requires m.Valid() && IsRoot(m.use, t) && va == v * PGSIZE < MAXVA && At(t, v) in m.flat
    modifies m
    ensures m.Valid() && m.use == old(m.use) && m.free == old(m.free) && m.data == old(m.data)
    ensures m.flat == Put(old(m.flat), t, v, NoUser(old(m.flat)[At(t, v)]))
  {
    VpnShift(0, v);
    var ok, p, k := m.Walk(t, va, false);
    var e := m.GetLeaf(t, Vpn(va), p, k);
    m.Open();
    OwnFrame(m.use, m.flat, t, v, e.ppn);
    m.SetLeaf(t, v, p, k, NoUser(e));
  }
}

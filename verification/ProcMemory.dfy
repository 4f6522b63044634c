/**
 The memory of processes (proc.c, exec.c): a user table, a kernel table whose lower part
 mirrors it, a trapframe page, and how fork, growproc, exec and freeproc keep them.
 */
module ProcMemory {
  import opened Common
  import opened Riscv
  import opened PageTable
  import opened UserMemory

  /** How a call ends; after `Panicked` nothing is promised. */
  datatype Outcome = Done | Failed | Panicked

  /** The memory fields of a struct proc. */
  datatype Space = Space(user: nat, kern: nat, sz: nat, frame: nat)

  const TOP: nat := Vpn(TRAMPOLINE)
  const TRAPPAGE: nat := Vpn(TRAPFRAME)

  const RW: Perm := Perm(true, true, false, false)
  const RX: Perm := Perm(true, false, true, false)

  // ---------------------------------------------------------------------------------------
  // What a call on some tables leaves alone
  // ---------------------------------------------------------------------------------------

  /** Page p, used for u, is one of ts or belongs to a table in ts. */
  predicate Mine(u: Use, p: nat, ts: set<nat>) {
    match u
    case Root => p in ts
    case Mid(t, _) => t in ts
    case Low(t, _, _) => t in ts
    case Frame(t, _) => t in ts
    case Other => p in ts
  }

  predicate SameUse(w: Uses, x: Uses, p: nat) {
    (p in w <==> p in x) && (p in w ==> x[p] == w[p])
  }

  /** Page p has kept its use, or belongs to ts before and after. */
  predicate UseConfined(w: World, x: World, p: nat, ts: set<nat>) {
    SameUse(w.use, x.use, p) || ((p in w.use ==> Mine(w.use[p], p, ts)) && (p in x.use ==> Mine(x.use[p], p, ts)))
  }

  predicate DataConfined(w: World, x: World, p: nat, ts: set<nat>)
  {
    p in w.data && p in w.use && !Mine(w.use[p], p, ts) ==> p in x.data && x.data[p] == w.data[p]
  }

  /** From w to x only mappings, pages and bytes that belong to ts changed, and no page was lost. */
  ghost predicate Confined(w: World, x: World, ts: set<nat>) {
    && (forall k: At :: k.t !in ts ==> Same(w.flat, x.flat, k))
    && (forall p: nat :: UseConfined(w, x, p, ts))
    && (forall p: nat :: DataConfined(w, x, p, ts))
    && (forall p: nat :: p in w.free || p in w.use <==> p in x.free || p in x.use)
  }

  lemma ConfinedTrans(w: World, x: World, y: World, ts: set<nat>)
    requires Confined(w, x, ts) && Confined(x, y, ts)
    ensures Confined(w, y, ts)
  {
    forall k: At | k.t !in ts ensures Same(w.flat, y.flat, k) {
      assert Same(w.flat, x.flat, k) && Same(x.flat, y.flat, k);
    }
    forall p: nat ensures UseConfined(w, y, p, ts) && DataConfined(w, y, p, ts) {
      assert UseConfined(w, x, p, ts) && UseConfined(x, y, p, ts);
      assert DataConfined(w, x, p, ts) && DataConfined(x, y, p, ts);
    }
  }

  lemma ConfinedMore(w: World, x: World, ts: set<nat>, us: set<nat>)
    requires Confined(w, x, ts) && ts <= us
    ensures Confined(w, x, us)
  {
    forall p: nat ensures UseConfined(w, x, p, us) && DataConfined(w, x, p, us) {
      assert UseConfined(w, x, p, ts) && DataConfined(w, x, p, ts);
    }
  }

  lemma GrownIsConfined(w: World, x: World, t: nat, v: nat, n: nat, img: Images)
    requires Grown(w, x, t, v, n, img)
    ensures Confined(w, x, {t})
  {
    forall p: nat ensures UseConfined(w, x, p, {t}) && DataConfined(w, x, p, {t}) {
    }
  }

  lemma TablesAreConfined(w: World, x: World, t: nat)
    requires OnlyTables(w.use, w.free, x.use, x.free, t) && x.data == w.data
    requires forall k: At :: k.t != t ==> Same(w.flat, x.flat, k)
    ensures Confined(w, x, {t})
  {
    forall p: nat ensures UseConfined(w, x, p, {t}) && DataConfined(w, x, p, {t}) {
    }
  }

  lemma ShrunkIsConfined(w: World, x: World, t: nat, v: nat, n: nat)
    requires Shrunk(w, x, t, v, n)
    ensures Confined(w, x, {t})
  {
    forall p: nat ensures UseConfined(w, x, p, {t}) && DataConfined(w, x, p, {t}) {
    }
  }

  /** No page and no mapping of w belongs to ts. */
  ghost predicate Fresh(w: World, ts: set<nat>) {
    && (forall p: nat :: p in w.use ==> !Mine(w.use[p], p, ts))
    && (forall k: At :: k in w.flat ==> k.t !in ts)
  }

  /** A page that is not in use is the root of nothing. */
  lemma FreshPage(m: Memory, t: nat)
    requires m.Valid() && t !in m.use
    ensures Fresh(m.Now(), {t})
  {
    m.Open();
    forall p: nat | p in m.use ensures !Mine(m.use[p], p, {t}) {
      assert BackOk(m.tab, m.use, p) && FrameOk(m.use, m.flat, p);
    }
  }

  ghost predicate Tidy(w: World) {
    Stored(w) && w.free !! w.use.Keys
  }

  lemma ValidIsTidy(m: Memory)
    requires m.Valid()
    ensures Tidy(m.Now())
  {
    m.Open();
  }

  /** What belongs to ts: tables with their frames, and single pages. */
  ghost function Belongings(use: Uses, ts: set<nat>): set<nat> {
    set p | p in use && Mine(use[p], p, ts)
  }

  /** From x to y everything that belongs to ts was freed, and nothing else. */
  ghost predicate Released(x: World, y: World, ts: set<nat>) {
    var gone := Belongings(x.use, ts);
    && (forall k: At :: (k in y.flat <==> k in x.flat && k.t !in ts) && (k in y.flat ==> y.flat[k] == x.flat[k]))
    && y.use == x.use - gone && y.free == x.free + gone && y.data == x.data - gone
  }

  lemma ReleasedBoth(x: World, y: World, z: World, ts: set<nat>, us: set<nat>)
    requires Released(x, y, ts) && Released(y, z, us)
    ensures Released(x, z, ts + us)
  {
    assert Belongings(x.use, ts) + Belongings(y.use, us) == Belongings(x.use, ts + us) by {
      forall p: nat | p in x.use ensures Mine(x.use[p], p, ts + us) <==> Mine(x.use[p], p, ts) || Mine(x.use[p], p, us) {
      }
    }
  }

  /** Freeing what was made since w leads back to w. */
  lemma ReleasedIsBack(w: World, x: World, y: World, ts: set<nat>)
    requires Fresh(w, ts) && Confined(w, x, ts) && Released(x, y, ts)
    requires Tidy(w) && Tidy(x)
    ensures y == w
  {
    forall k: At ensures Same(y.flat, w.flat, k) {
      assert k.t !in ts ==> Same(w.flat, x.flat, k);
    }
    AllSame(y.flat, w.flat);
    forall p: nat ensures (p in y.use <==> p in w.use) && (p in w.use ==> y.use[p] == w.use[p]) {
      assert UseConfined(w, x, p, ts);
    }
    assert y.use == w.use;
    forall p: nat ensures (p in y.data <==> p in w.data) && (p in w.data ==> y.data[p] == w.data[p]) {
      assert DataConfined(w, x, p, ts);
    }
    assert y.data == w.data;
    assert y.free == w.free;
  }

  // ---------------------------------------------------------------------------------------
  // Freeing tables
  // ---------------------------------------------------------------------------------------

  /** Freeing the tables of t frees all that belongs to t when it has no frames. */
  lemma TreeIsAll(use: Uses, t: nat)
    requires IsRoot(use, t) && NoFrames(use, t)
    ensures Below(use, t) == Belongings(use, {t})
  {
  }

  lemma FramesThenTree(w: World, x: World, y: World, t: nat, n: nat)
    requires IsRoot(w.use, t) && Shrunk(w, x, t, 0, n) && Released(x, y, {t})
    requires forall p: nat :: p in w.use && w.use[p].Frame? && w.use[p].t == t ==> w.use[p].v < n
    ensures Released(w, y, {t})
  {
    var gone := Belongings(w.use, {t});
    assert Frames(w.use, t, 0, n) + Belongings(x.use, {t}) == gone;
    assert y.use == w.use - gone;
    assert y.data == w.data - gone;
    assert y.free == w.free + gone;
  }

  /** freewalk or kvmfree of a whole table that has no frames. */
  method ReleaseTables(m: Memory, t: nat, leafPanics: bool)
    requires m.Valid() && IsRoot(m.use, t) && NoFrames(m.use, t)
    requires leafPanics ==> forall k: At :: k in m.flat ==> k.t != t
    modifies m
    ensures m.Valid() && Released(old(m.Now()), m.Now(), {t})
  {
    TreeIsAll(m.use, t);
    m.Open();
    assert m.data - Belongings(m.use, {t}) == m.data;
    var ok := m.FreeTable(t, leafPanics);
  }

  /** Table t maps exactly its first n pages to frames of its own, and has no other frame. */
  ghost predicate Pure(w: World, t: nat, n: nat) {
    && IsRoot(w.use, t) && Backed(w.use, w.flat, t, 0, n)
    && (forall k: At :: k in w.flat && k.t == t ==> k.v < n)
    && (forall p: nat :: p in w.use && w.use[p].Frame? && w.use[p].t == t ==> w.use[p].v < n)
  }

  lemma PureShrunk(w: World, x: World, t: nat, n: nat)
    requires Pure(w, t, n) && Shrunk(w, x, t, 0, n)
    ensures IsRoot(x.use, t) && NoFrames(x.use, t) && forall k: At :: k in x.flat ==> k.t != t
  {
  }

  /** uvmfree (vm.c:438-443). */
  method Uvmfree(m: Memory, t: nat, sz: nat)
    requires m.Valid() && Pure(m.Now(), t, Pages(sz)) && PgRoundUp(sz) <= MAXVA
    modifies m
    ensures m.Valid() && Released(old(m.Now()), m.Now(), {t})
  {
    ghost var w := m.Now();
    if sz > 0 {
      m.UvmunmapFree(t, 0, PgRoundUp(sz) / PGSIZE);
    }
    assert Shrunk(w, m.Now(), t, 0, Pages(sz)) by {
      if sz == 0 {
        assert Frames(w.use, t, 0, 0) == {};
      }
    }
    ghost var x := m.Now();
    PureShrunk(w, x, t, Pages(sz));
    ReleaseTables(m, t, true);
    FramesThenTree(w, x, m.Now(), t, Pages(sz));
  }

  /** A user table with n pages: also the trampoline, and the trapframe page. */
  ghost predicate UserTable(w: World, t: nat, n: nat, frame: nat, tramp: nat) {
    && n < TRAPPAGE && IsRoot(w.use, t) && Backed(w.use, w.flat, t, 0, n)
    && (forall k: At :: k in w.flat && k.t == t ==> k.v < n || k.v == TOP || k.v == TRAPPAGE)
    && (forall p: nat :: p in w.use && w.use[p].Frame? && w.use[p].t == t ==> w.use[p].v < n)
    && At(t, TOP) in w.flat && w.flat[At(t, TOP)] == MakePte(tramp, RX)
    && At(t, TRAPPAGE) in w.flat && w.flat[At(t, TRAPPAGE)] == MakePte(frame, RW)
  }

  lemma UserTableCut(w: World, x: World, y: World, t: nat, n: nat, frame: nat, tramp: nat)
    requires UserTable(w, t, n, frame, tramp)
    requires Unmapped(w.flat, x.flat, t, TOP, 1) && Unmapped(x.flat, y.flat, t, TRAPPAGE, 1)
    requires y.use == w.use
    ensures Pure(y, t, n)
  {
    assert forall i: nat :: i < n ==> At(t, i) in w.flat ==> At(t, i) in y.flat && y.flat[At(t, i)] == w.flat[At(t, i)];
  }

  lemma CutThenReleased(w: World, x: World, y: World, z: World, t: nat)
    requires Unmapped(w.flat, x.flat, t, TOP, 1) && Unmapped(x.flat, y.flat, t, TRAPPAGE, 1)
    requires y.use == w.use && y.data == w.data && y.free == w.free && Released(y, z, {t})
    ensures Released(w, z, {t})
  {
  }

  /** proc_freeuserpagetable (proc.c:212-217). */
  method FreeUserTable(m: Memory, t: nat, sz: nat, ghost frame: nat, ghost tramp: nat)
    requires m.Valid() && UserTable(m.Now(), t, Pages(sz), frame, tramp)
    modifies m
    ensures m.Valid() && Released(old(m.Now()), m.Now(), {t})
  {
    ghost var w := m.Now();
    m.UvmunmapKeep(t, TRAMPOLINE, 1);
    ghost var x := m.Now();
    m.UvmunmapKeep(t, TRAPFRAME, 1);
    ghost var y := m.Now();
    UserTableCut(w, x, y, t, Pages(sz), frame, tramp);
    Uvmfree(m, t, sz);
    CutThenReleased(w, x, y, m.Now(), t);
  }

  // ---------------------------------------------------------------------------------------
  // What new tables cost
  // ---------------------------------------------------------------------------------------

  /** From w to x a table was made that has pages at the places `have`, and k more pages were taken. */
  ghost predicate Built(w: World, x: World, t: nat, have: set<Slot>, k: nat) {
    forall i: nat :: CostKey(i) ==> Slots(x.use, t) == have && |x.free| + |have| + k == |w.free|
  }

  lemma BuiltMeans(w: World, x: World, t: nat, have: set<Slot>, k: nat)
    requires Built(w, x, t, have, k)
    ensures Slots(x.use, t) == have && |x.free| + |have| + k == |w.free|
  {
    assert CostKey(0);
  }

  /** Mapping pages v .. v+n in it. */
  lemma BuiltMore(w: World, x: World, y: World, t: nat, have: set<Slot>, k: nat, v: nat, n: nat, j: nat, have': set<Slot>, k': nat)
    requires Built(w, x, t, have, k) && Paid(x, y, t, Lacking(x.use, t, v, n), j) && have' == have + PathSlots(v, n) && k' == k + j
    ensures Built(w, y, t, have', k')
  {
    BuiltMeans(w, x, t, have, k);
    PaidMeans(x, y, t, Lacking(x.use, t, v, n), j);
    LackingIs(x.use, t, v, n);
    JoinSize(have, PathSlots(v, n));
  }

  lemma JoinSize(a: set<Slot>, b: set<Slot>)
    ensures a + (b - a) == a + b && |a + b| == |a| + |b - a|
  {
    assert a + (b - a) == a + b;
  }

  /** Too few pages left for that means too few at the start. */
  lemma BuiltTooFew(w: World, x: World, t: nat, have: set<Slot>, k: nat, v: nat, n: nat, j: nat)
    requires Built(w, x, t, have, k) && |x.free| < j + |Lacking(x.use, t, v, n)|
    ensures |w.free| < k + j + |have + PathSlots(v, n)|
  {
    BuiltMeans(w, x, t, have, k);
    LackingIs(x.use, t, v, n);
    JoinSize(have, PathSlots(v, n));
  }

  lemma SpentIsPaid(x: World, y: World, t: nat, need: set<Slot>)
    requires Spent(x.use, x.free, y.use, y.free, t, need)
    ensures Paid(x, y, t, need, 0)
  {
    SpentMeans(x.use, x.free, y.use, y.free, t, need);
  }

  /** A table's places are its own affair. */
  lemma SlotsKept(w: World, x: World, t: nat, ts: set<nat>)
    requires Confined(w, x, ts) && t !in ts
    ensures Slots(x.use, t) == Slots(w.use, t)
  {
    forall p: nat
      ensures (p in w.use && (w.use[p].Mid? || w.use[p].Low?) && w.use[p].t == t) <==> (p in x.use && (x.use[p].Mid? || x.use[p].Low?) && x.use[p].t == t)
      ensures p in w.use && p in x.use && (w.use[p].Mid? || w.use[p].Low?) && w.use[p].t == t ==> x.use[p] == w.use[p]
    {
      assert UseConfined(w, x, p, ts);
    }
    SlotsSame(w.use, x.use, t);
  }

  lemma LackingKept(w: World, x: World, t: nat, ts: set<nat>, v: nat, n: nat)
    requires Confined(w, x, ts) && t !in ts
    ensures Lacking(x.use, t, v, n) == Lacking(w.use, t, v, n)
  {
    SlotsKept(w, x, t, ts);
    LackingIs(x.use, t, v, n);
    LackingIs(w.use, t, v, n);
  }

  lemma FreshHasNoSlots(w: World, t: nat)
    requires Fresh(w, {t})
    ensures Slots(w.use, t) == {}
  {
    forall s: Slot ensures s !in Slots(w.use, t) {
      InSlots(w.use, t, s);
      forall p: nat ensures !HasSlot(w.use, t, p, s) {
        assert p in w.use ==> !Mine(w.use[p], p, {t});
      }
    }
  }

  // ---------------------------------------------------------------------------------------
  // Making tables
  // ---------------------------------------------------------------------------------------

  /** From w to x only things that belong to ts changed, and w had none of them. */
  ghost predicate New(w: World, x: World, ts: set<nat>) {
    Tidy(w) && Fresh(w, ts) && Confined(w, x, ts)
  }

  /** From w to x table t, which w knows nothing of, was made; it has no frames. */
  ghost predicate Made(w: World, x: World, t: nat) {
    New(w, x, {t}) && IsRoot(x.use, t) && NoFrames(x.use, t)
  }

  /** A new empty table. */
  method MakeRoot(m: Memory) returns (t: nat)
    requires m.Valid()
    modifies m
    ensures m.Valid()
    ensures t == 0 <==> old(m.free) == {}
    ensures t == 0 ==> m.Now() == old(m.Now())
    ensures t != 0 ==> Made(old(m.Now()), m.Now(), t) && t !in old(m.use) && m.flat == old(m.flat)
    ensures t != 0 ==> Built(old(m.Now()), m.Now(), t, {}, 1)
  {
    ValidIsTidy(m);
    ghost var w := m.Now();
    forall r: nat | r !in m.use ensures Fresh(w, {r}) {
      FreshPage(m, r);
    }
    t := m.Uvmcreate();
    if t != 0 {
      ghost var x := m.Now();
      assert Built(w, x, t, {}, 1) by {
        FreshHasNoSlots(w, t);
        SlotsSame(w.use, x.use, t);
      }
      forall p: nat ensures UseConfined(w, x, p, {t}) && DataConfined(w, x, p, {t}) {
      }
    }
  }

  /** A page mapped in t since it was made. */
  lemma MadeStep(w: World, x: World, y: World, t: nat, v: nat, e: Pte, ok: bool)
    requires Made(w, x, t) && y.data == x.data && OnlyTables(x.use, x.free, y.use, y.free, t)
    requires y.flat == if ok then Put(x.flat, t, v, e) else x.flat
    ensures Made(w, y, t)
  {
    TablesAreConfined(x, y, t);
    ConfinedTrans(w, x, y, {t});
  }

  /** The places that trampoline and trapframe need. */
  ghost function TrapSlots(): set<Slot> {
    PathSlots(TOP, 1) + PathSlots(TRAPPAGE, 1)
  }

  lemma TrapSlotsAre()
    ensures TrapSlots() == {Upper(255), Lower(255, 511)} && |PathSlots(TOP, 1)| == 2 == |TrapSlots()| && PathSlots(TOP, 1) == TrapSlots()
  {
    PageSlotsAt(TOP, Path(255, 511, 511));
    PageSlotsAt(TRAPPAGE, Path(255, 511, 510));
  }

  /** proc_pagetable (proc.c:171-199): a user table without user pages, or, exactly when fewer than
      three pages are free, no change at all. */
  method ProcPagetable(m: Memory, frame: nat, tramp: nat) returns (t: nat)
    requires m.Valid() && frame > 0 && tramp > 0
    modifies m
    ensures m.Valid()
    ensures t == 0 <==> |old(m.free)| < 3
    ensures t == 0 ==> m.Now() == old(m.Now())
    ensures t != 0 ==> Made(old(m.Now()), m.Now(), t) && t !in old(m.use) && UserTable(m.Now(), t, 0, frame, tramp)
    ensures t != 0 ==> Built(old(m.Now()), m.Now(), t, TrapSlots(), 1)
  {
    ghost var w := m.Now();
    TrapSlotsAre();
    t := MakeRoot(m);
    if t == 0 {
      return;
    }
    ghost var x := m.Now();
    var ok := MapPage(m, t, TRAMPOLINE, tramp, RX, TOP);
    MadeStep(w, x, m.Now(), t, TOP, MakePte(tramp, RX), ok);
    if !ok {
      BuiltTooFew(w, x, t, {}, 1, TOP, 1, 0);
      assert {} + PathSlots(TOP, 1) == PathSlots(TOP, 1);
      DropNew(m, t, w);
      return 0;
    }
    ghost var y := m.Now();
    assert Built(w, y, t, PathSlots(TOP, 1), 1) by {
      SpentIsPaid(x, y, t, Lacking(x.use, t, TOP, 1));
      assert {} + PathSlots(TOP, 1) == PathSlots(TOP, 1);
      BuiltMore(w, x, y, t, {}, 1, TOP, 1, 0, PathSlots(TOP, 1), 1);
    }
    t := TrapframeToo(m, t, frame, tramp, w);
  }

  /** Its second half (proc.c:190-198), when the trampoline is mapped. */
  method TrapframeToo(m: Memory, t: nat, frame: nat, ghost tramp: nat, ghost w: World) returns (r: nat)
    requires m.Valid() && frame > 0 && t != 0 && t !in w.use && Made(w, m.Now(), t) && Built(w, m.Now(), t, PathSlots(TOP, 1), 1)
    requires (forall k: At :: k in m.flat && k.t == t ==> k.v == TOP) && At(t, TOP) in m.flat && m.flat[At(t, TOP)] == MakePte(tramp, RX)
    modifies m
    ensures m.Valid() && (r == 0 || r == t)
    ensures r == 0 <==> |w.free| < 3
    ensures r == 0 ==> m.Now() == w
    ensures r != 0 ==> Made(w, m.Now(), t) && UserTable(m.Now(), t, 0, frame, tramp) && Built(w, m.Now(), t, TrapSlots(), 1)
  {
    ghost var y := m.Now();
    TrapSlotsAre();
    var ok := MapPage(m, t, TRAPFRAME, frame, RW, TRAPPAGE);
    ghost var z := m.Now();
    MadeStep(w, y, z, t, TRAPPAGE, MakePte(frame, RW), ok);
    if !ok {
      BuiltTooFew(w, y, t, PathSlots(TOP, 1), 1, TRAPPAGE, 1, 0);
      m.UvmunmapKeep(t, TRAMPOLINE, 1);
      assert Made(w, m.Now(), t) by {
        TablesAreConfined(z, m.Now(), t);
        ConfinedTrans(w, z, m.Now(), {t});
      }
      DropNew(m, t, w);
      return 0;
    }
    assert Built(w, z, t, TrapSlots(), 1) by {
      SpentIsPaid(y, z, t, Lacking(y.use, t, TRAPPAGE, 1));
      BuiltMore(w, y, z, t, PathSlots(TOP, 1), 1, TRAPPAGE, 1, 0, TrapSlots(), 1);
    }
    BuiltMeans(w, z, t, TrapSlots(), 1);
    r := t;
  }

  /** uvmfree(t, 0) of a table made since w that maps nothing. */
  method DropNew(m: Memory, t: nat, ghost w: World)
    requires m.Valid() && Made(w, m.Now(), t) && forall k: At :: k in m.flat ==> k.t != t
    modifies m
    ensures m.Valid() && m.Now() == w
  {
    ValidIsTidy(m);
    ghost var x := m.Now();
    Uvmfree(m, t, 0);
    ReleasedIsBack(w, x, m.Now(), {t});
  }

  // ---------------------------------------------------------------------------------------
  // Kernel mappings
  // ---------------------------------------------------------------------------------------

  /** Where devices, kernel text and memory lie, in page numbers; `tramp` is a physical page. */
  datatype Layout = Layout(uart: nat, virtio: nat, etext: nat, phystop: nat, tramp: nat)

  /** A process's kernel stack: its page in the kernel table, and the physical page. */
  datatype Stack = Stack(v: nat, ppn: nat)

  datatype Region = Region(v: nat, n: nat, ppn: nat, perm: Perm)

  predicate In(r: Region, v: nat) {
    r.v <= v < r.v + r.n
  }

  const FIRST: nat := Vpn(PLIC)
  const KERN: nat := Vpn(KERNBASE)

  predicate LayoutOk(l: Layout, st: Stack) {
    && FIRST + 1024 <= l.uart < l.virtio < KERN < l.etext < l.phystop <= st.v < TOP
    && l.tramp > 0 && st.ppn > 0
  }

  /** What kvminit_proc maps (vm.c:54-82), and then allocproc (proc.c:124). */
  function RegionOf(l: Layout, st: Stack, i: nat): (r: Region)
    requires LayoutOk(l, st)
  {
    match i
    case 0 => Region(l.uart, 1, l.uart, RW)
    case 1 => Region(l.virtio, 1, l.virtio, RW)
    case 2 => Region(FIRST, 1024, FIRST, RW)
    case 3 => Region(KERN, l.etext - KERN, KERN, RX)
    case 4 => Region(l.etext, l.phystop - l.etext, l.etext, RW)
    case 5 => Region(TOP, 1, l.tramp, RX)
    case _ => Region(st.v, 1, st.ppn, RW)
  }

  /** What the first n regions map page v to. */
  function KernPte(l: Layout, st: Stack, n: nat, v: nat): Option<Pte>
    requires LayoutOk(l, st) && n <= 7
  {
    if n == 0 then None
    else
      var r := RegionOf(l, st, n - 1);
      if In(r, v) then Some(MakePte(r.ppn + (v - r.v), r.perm)) else KernPte(l, st, n - 1, v)
  }

  lemma RegionsApart(l: Layout, st: Stack, i: nat, j: nat, v: nat)
    requires LayoutOk(l, st) && i < j < 7 && In(RegionOf(l, st, j), v)
    ensures !In(RegionOf(l, st, i), v)
  {
  }

  lemma {:induction false} RegionIsNew(l: Layout, st: Stack, n: nat, j: nat, v: nat)
    requires LayoutOk(l, st) && n <= j < 7 && In(RegionOf(l, st, j), v)
    ensures KernPte(l, st, n, v) == None
  {
    if n > 0 {
      RegionsApart(l, st, n - 1, j, v);
      RegionIsNew(l, st, n - 1, j, v);
    }
  }

  /** What the kernel half maps, page by page: every mapped page but the trampoline and the stack maps
      to itself; it can be executed iff it is kernel text, and written iff it is not. */
  lemma KernelMapsItself(l: Layout, st: Stack, v: nat)
    requires LayoutOk(l, st)
    ensures KernPte(l, st, 7, v).Some? <==>
              v == l.uart || v == l.virtio || FIRST <= v < FIRST + 1024 || KERN <= v < l.phystop || v == TOP || v == st.v
    ensures var e := KernPte(l, st, 7, v);
            e.Some? && v != TOP && v != st.v ==>
              e.value.ppn == v && e.value.r && (e.value.x <==> KERN <= v < l.etext) && (e.value.w <==> !(KERN <= v < l.etext))
    ensures KernPte(l, st, 7, TOP) == Some(Pte(true, true, false, true, false, l.tramp))
    ensures KernPte(l, st, 7, st.v) == Some(Pte(true, true, true, false, false, st.ppn))
  {
    KernPteFrom(l, st, v);
    KernPteFrom(l, st, TOP);
    KernPteFrom(l, st, st.v);
  }

  /** `KernPte` with its recursion written out. */
  lemma KernPteFrom(l: Layout, st: Stack, v: nat)
    requires LayoutOk(l, st)
    ensures KernPte(l, st, 7, v) ==
              if v == st.v then Some(Pte(true, true, true, false, false, st.ppn))
              else if v == TOP then Some(Pte(true, true, false, true, false, l.tramp))
              else if l.etext <= v < l.phystop then Some(Pte(true, true, true, false, false, v))
              else if KERN <= v < l.etext then Some(Pte(true, true, false, true, false, v))
              else if FIRST <= v < FIRST + 1024 || v == l.virtio || v == l.uart then Some(Pte(true, true, true, false, false, v))
              else None
  {
    assert KernPte(l, st, 0, v) == None;
    assert KernPte(l, st, 1, v) == if v == l.uart then Some(MakePte(v, RW)) else None;
    assert KernPte(l, st, 2, v) == if v == l.virtio then Some(MakePte(v, RW)) else KernPte(l, st, 1, v);
    assert KernPte(l, st, 3, v) == if FIRST <= v < FIRST + 1024 then Some(MakePte(v, RW)) else KernPte(l, st, 2, v);
    assert KernPte(l, st, 4, v) == if KERN <= v < l.etext then Some(MakePte(v, RX)) else KernPte(l, st, 3, v);
    assert KernPte(l, st, 5, v) == if l.etext <= v < l.phystop then Some(MakePte(v, RW)) else KernPte(l, st, 4, v);
    assert KernPte(l, st, 6, v) == if v == TOP then Some(MakePte(l.tramp, RX)) else KernPte(l, st, 5, v);
  }

  /** Kernel mappings start at PLIC. */
  lemma {:induction false} KernelIsHigh(l: Layout, st: Stack, n: nat, v: nat)
    requires LayoutOk(l, st) && n <= 7 && v < FIRST
    ensures KernPte(l, st, n, v) == None
  {
    if n > 0 {
      KernelIsHigh(l, st, n - 1, v);
    }
  }

  /** Page v of k is mapped as e says. */
  predicate MapsTo(flat: Flat, k: nat, v: nat, e: Option<Pte>) {
    (At(k, v) in flat <==> e.Some?) && (e.Some? ==> flat[At(k, v)] == e.value)
  }

  /** k maps the first n kernel regions and no more. */
  ghost predicate Kernel(flat: Flat, k: nat, l: Layout, st: Stack, n: nat)
    requires LayoutOk(l, st) && n <= 7
  {
    forall v: nat :: MapsTo(flat, k, v, KernPte(l, st, n, v))
  }

  lemma RegionAdded(flat: Flat, flat': Flat, k: nat, l: Layout, st: Stack, n: nat)
    requires LayoutOk(l, st) && n < 7 && Kernel(flat, k, l, st, n)
    requires var r := RegionOf(l, st, n); Mapped(flat, flat', k, r.v, r.n, r.ppn, r.perm)
    ensures Kernel(flat', k, l, st, n + 1)
  {
    var n' := n + 1;
    forall v: nat ensures MapsTo(flat', k, v, KernPte(l, st, n', v)) {
      assert MapsTo(flat, k, v, KernPte(l, st, n, v));
      assert At(k, v).v == v;
    }
  }

  /** The places that the first n regions need. */
  ghost function RegionSlots(l: Layout, st: Stack, n: nat): set<Slot>
    requires LayoutOk(l, st) && n <= 7
  {
    if n == 0 then {} else RegionSlots(l, st, n - 1) + PathSlots(RegionOf(l, st, n - 1).v, RegionOf(l, st, n - 1).n)
  }

  lemma {:induction false} RegionSlotsGrow(l: Layout, st: Stack, n: nat, k: nat)
    requires LayoutOk(l, st) && n <= k <= 7
    ensures RegionSlots(l, st, n) <= RegionSlots(l, st, k) && |RegionSlots(l, st, n)| <= |RegionSlots(l, st, k)|
  {
    if n < k {
      RegionSlotsGrow(l, st, n, k - 1);
      SubsetSize(RegionSlots(l, st, k - 1), RegionSlots(l, st, k));
    }
  }

  /** The table pages of a kernel table. */
  ghost function KernTables(l: Layout, st: Stack): nat
    requires LayoutOk(l, st)
  {
    |RegionSlots(l, st, 7)|
  }

  /** kvmmap_proc of region n; a failure is a panic. */
  method MapRegion(m: Memory, k: nat, l: Layout, st: Stack, n: nat, ghost w: World) returns (ok: bool)
    requires LayoutOk(l, st) && n < 7
    requires m.Valid() && Made(w, m.Now(), k) && Kernel(m.flat, k, l, st, n) && Built(w, m.Now(), k, RegionSlots(l, st, n), 1)
    modifies m
    ensures ok ==> m.Valid() && Made(w, m.Now(), k) && Kernel(m.flat, k, l, st, n + 1) && Built(w, m.Now(), k, RegionSlots(l, st, n + 1), 1)
    ensures !ok ==> |w.free| < 1 + KernTables(l, st)
  {
    var r := RegionOf(l, st, n);
    forall v: nat | In(r, v) ensures At(k, v) !in m.flat {
      RegionIsNew(l, st, n, n, v);
      assert MapsTo(m.flat, k, v, KernPte(l, st, n, v));
    }
    ghost var x := m.Now();
    ok := MapArea(m, k, r);
    if ok {
      assert Kernel(m.flat, k, l, st, n + 1) by {
        RegionAdded(x.flat, m.flat, k, l, st, n);
      }
      assert Made(w, m.Now(), k) by {
        ConfinedTrans(w, x, m.Now(), {k});
      }
      assert Built(w, m.Now(), k, RegionSlots(l, st, n + 1), 1) by {
        BuiltMore(w, x, m.Now(), k, RegionSlots(l, st, n), 1, r.v, r.n, 0, RegionSlots(l, st, n + 1), 1);
      }
    } else {
      assert |w.free| < 1 + KernTables(l, st) by {
        BuiltTooFew(w, x, k, RegionSlots(l, st, n), 1, r.v, r.n, 0);
        RegionSlotsGrow(l, st, n + 1, 7);
      }
    }
  }

  /** mappages of a region of whole pages. */
  method MapArea(m: Memory, k: nat, r: Region) returns (ok: bool)
    requires m.Valid() && IsRoot(m.use, k) && r.n > 0 && (r.v + r.n) * PGSIZE <= MAXVA && r.ppn > 0 && MapsPage(r.perm)
    requires forall v: nat :: In(r, v) ==> At(k, v) !in m.flat
    modifies m
    ensures m.Valid() && IsRoot(m.use, k) && Confined(old(m.Now()), m.Now(), {k}) && (NoFrames(old(m.use), k) ==> NoFrames(m.use, k))
    ensures ok <==> |old(m.free)| >= |Lacking(old(m.use), k, r.v, r.n)|
    ensures ok ==> Mapped(old(m.flat), m.flat, k, r.v, r.n, r.ppn, r.perm) && Paid(old(m.Now()), m.Now(), k, Lacking(old(m.use), k, r.v, r.n), 0)
  {
    ghost var x, c := m.Now(), 0;
    RegionPages(r);
    ok, c := m.Mappages(k, r.v * PGSIZE, r.n * PGSIZE, r.ppn * PGSIZE, r.perm);
    MappedIsConfined(x, m.Now(), k, r.v, c, r.ppn, r.perm);
    if ok {
      assert Paid(x, m.Now(), k, Lacking(x.use, k, r.v, r.n), 0) by {
        SpentIsPaid(x, m.Now(), k, Lacking(x.use, k, r.v, r.n));
      }
    }
  }

  lemma MappedIsConfined(x: World, y: World, k: nat, v: nat, n: nat, ppn: nat, perm: Perm)
    requires Mapped(x.flat, y.flat, k, v, n, ppn, perm) && OnlyTables(x.use, x.free, y.use, y.free, k) && y.data == x.data
    ensures Confined(x, y, {k}) && (IsRoot(x.use, k) ==> IsRoot(y.use, k)) && (NoFrames(x.use, k) ==> NoFrames(y.use, k))
  {
    forall a: At | a.t != k ensures Same(x.flat, y.flat, a) {
    }
    TablesAreConfined(x, y, k);
  }

  lemma RegionPages(r: Region)
    requires r.n > 0
    ensures Vpn(r.v * PGSIZE) == r.v && Vpn(r.ppn * PGSIZE) == r.ppn
    ensures Vpn(r.v * PGSIZE + r.n * PGSIZE - 1) == r.v + r.n - 1
  {
  }

  // ---------------------------------------------------------------------------------------
  // A process's memory
  // ---------------------------------------------------------------------------------------

  /** Below the process size page v maps the same page in both tables, without U in the kernel's;
      above, the kernel table holds the kernel mappings. */
  predicate MirrorAt(flat: Flat, s: Space, n: nat, l: Layout, st: Stack, v: nat)
    requires LayoutOk(l, st)
  {
    if v < n then At(s.user, v) in flat && MapsTo(flat, s.kern, v, Some(NoUser(flat[At(s.user, v)])))
    else MapsTo(flat, s.kern, v, KernPte(l, st, 7, v))
  }

  ghost predicate Mirror(flat: Flat, s: Space, n: nat, l: Layout, st: Stack)
    requires LayoutOk(l, st)
  {
    forall v: nat :: MirrorAt(flat, s, n, l, st, v)
  }

  ghost predicate SpaceOk(w: World, s: Space, l: Layout, st: Stack) {
    && LayoutOk(l, st) && s.sz <= PLIC && s.user != s.kern
    && s.frame > 0 && s.frame in w.use && w.use[s.frame] == Other
    && UserTable(w, s.user, Pages(s.sz), s.frame, l.tramp)
    && IsRoot(w.use, s.kern) && NoFrames(w.use, s.kern)
    && Mirror(w.flat, s, Pages(s.sz), l, st)
  }

  lemma {:induction false} KernelIsNotUser(l: Layout, st: Stack, n: nat, v: nat)
    requires LayoutOk(l, st) && n <= 7
    ensures KernPte(l, st, n, v).Some? ==> KernPte(l, st, n, v).value.v && !KernPte(l, st, n, v).value.u
  {
    if n > 0 {
      KernelIsNotUser(l, st, n - 1, v);
    }
  }

  /** The mirror, field by field: below the process size the kernel entry has the page and the V, R, W
      and X of the user entry; and no entry of the kernel table has U. */
  lemma MirrorLaw(w: World, s: Space, l: Layout, st: Stack, v: nat)
    requires SpaceOk(w, s, l, st)
    ensures v < Pages(s.sz) ==> At(s.user, v) in w.flat && At(s.kern, v) in w.flat
    ensures v < Pages(s.sz) ==>
              var u, k := w.flat[At(s.user, v)], w.flat[At(s.kern, v)];
              k.ppn == u.ppn && k.v == u.v && k.r == u.r && k.w == u.w && k.x == u.x
    ensures At(s.kern, v) in w.flat ==> !w.flat[At(s.kern, v)].u
  {
    assert MirrorAt(w.flat, s, Pages(s.sz), l, st, v);
    KernelIsNotUser(l, st, 7, v);
  }

  function Owners(s: Space): set<nat> {
    {s.user, s.kern, s.frame}
  }

  lemma BackedKept(w: World, x: World, t: nat, n: nat, ts: set<nat>)
    requires Backed(w.use, w.flat, t, 0, n) && Confined(w, x, ts) && t !in ts
    ensures Backed(x.use, x.flat, t, 0, n)
  {
    forall i: nat | 0 <= i < 0 + n
      ensures At(t, i) in x.flat && x.flat[At(t, i)].ppn in x.use && x.use[x.flat[At(t, i)].ppn] == Frame(t, i)
    {
      assert Same(w.flat, x.flat, At(t, i));
      assert UseConfined(w, x, w.flat[At(t, i)].ppn, ts);
    }
  }

  lemma UserTableKept(w: World, x: World, t: nat, n: nat, frame: nat, tramp: nat, ts: set<nat>)
    requires UserTable(w, t, n, frame, tramp) && Confined(w, x, ts) && t !in ts
    ensures UserTable(x, t, n, frame, tramp)
  {
    BackedKept(w, x, t, n, ts);
    assert UseConfined(w, x, t, ts);
    forall k: At | k in x.flat && k.t == t ensures k.v < n || k.v == TOP || k.v == TRAPPAGE {
      assert Same(w.flat, x.flat, k);
    }
    assert Same(w.flat, x.flat, At(t, TOP)) && Same(w.flat, x.flat, At(t, TRAPPAGE));
    forall p: nat | p in x.use && x.use[p].Frame? && x.use[p].t == t ensures x.use[p].v < n {
      assert UseConfined(w, x, p, ts);
    }
  }

  lemma KernelKept(w: World, x: World, k: nat, ts: set<nat>)
    requires IsRoot(w.use, k) && NoFrames(w.use, k) && Confined(w, x, ts) && k !in ts
    ensures IsRoot(x.use, k) && NoFrames(x.use, k)
  {
    assert UseConfined(w, x, k, ts);
    forall p: nat | p in x.use && x.use[p].Frame? ensures x.use[p].t != k {
      assert UseConfined(w, x, p, ts);
    }
  }

  /** What belongs to others leaves a process's memory as it is. */
  lemma SpaceKept(w: World, x: World, s: Space, l: Layout, st: Stack, ts: set<nat>)
    requires SpaceOk(w, s, l, st) && Confined(w, x, ts) && ts !! Owners(s)
    ensures SpaceOk(x, s, l, st)
    ensures forall p: nat :: p in w.data && p in w.use && Mine(w.use[p], p, Owners(s)) ==> p in x.data && x.data[p] == w.data[p]
  {
    UserTableKept(w, x, s.user, Pages(s.sz), s.frame, l.tramp, ts);
    KernelKept(w, x, s.kern, ts);
    assert UseConfined(w, x, s.frame, ts);
    forall v: nat ensures MirrorAt(x.flat, s, Pages(s.sz), l, st, v) {
      assert MirrorAt(w.flat, s, Pages(s.sz), l, st, v);
      assert Same(w.flat, x.flat, At(s.user, v)) && Same(w.flat, x.flat, At(s.kern, v));
    }
    forall p: nat | p in w.data && p in w.use && Mine(w.use[p], p, Owners(s)) ensures p in x.data && x.data[p] == w.data[p] {
      assert DataConfined(w, x, p, ts);
    }
  }

  /** The single page p freed. */
  method FreePage(m: Memory, p: nat)
    requires m.Valid() && p in m.use && m.use[p] == Other
    modifies m
    ensures m.Valid() && Released(old(m.Now()), m.Now(), {p}) && Confined(old(m.Now()), m.Now(), {p})
  {
    ghost var w := m.Now();
    m.Open();
    forall q: nat | q in w.use && Mine(w.use[q], q, {p}) ensures q == p {
      assert BackOk(m.tab, m.use, q) && FrameOk(m.use, m.flat, q);
    }
    assert Belongings(w.use, {p}) == {p};
    assert forall k: At :: k in w.flat ==> k.t != p;
    m.Kfree(p);
    forall q: nat ensures UseConfined(w, m.Now(), q, {p}) && DataConfined(w, m.Now(), q, {p}) {
    }
  }

  /** freeproc (proc.c:146-166): the trapframe, every user page and every table page of both
      tables is freed, and nothing else. */
  method FreeSpace(m: Memory, s: Space, ghost l: Layout, ghost st: Stack)
    requires m.Valid() && SpaceOk(m.Now(), s, l, st)
    modifies m
    ensures m.Valid() && Released(old(m.Now()), m.Now(), Owners(s))
  {
    ghost var w := m.Now();
    FreePage(m, s.frame);
    ghost var x := m.Now();
    UserTableKept(w, x, s.user, Pages(s.sz), s.frame, l.tramp, {s.frame});
    KernelKept(w, x, s.kern, {s.frame});
    FreeUserTable(m, s.user, s.sz, s.frame, l.tramp);
    ghost var y := m.Now();
    ReleasedBoth(w, x, y, {s.frame}, {s.user});
    KernelReleased(x, y, s.user, s.kern);
    ReleaseTables(m, s.kern, false);
    ReleasedBoth(w, y, m.Now(), {s.frame} + {s.user}, {s.kern});
    assert {s.frame} + {s.user} + {s.kern} == Owners(s);
  }

  lemma KernelReleased(x: World, y: World, t: nat, k: nat)
    requires Released(x, y, {t}) && IsRoot(x.use, k) && NoFrames(x.use, k) && k != t
    ensures IsRoot(y.use, k) && NoFrames(y.use, k)
  {
  }

  // ---------------------------------------------------------------------------------------
  // Making a process's memory
  // ---------------------------------------------------------------------------------------

  lemma NewStep(w: World, x: World, y: World, ts: set<nat>, us: set<nat>)
    requires New(w, x, ts) && New(x, y, us)
    ensures New(w, y, ts + us)
  {
    ConfinedMore(w, x, ts, ts + us);
    ConfinedMore(x, y, us, ts + us);
    ConfinedTrans(w, x, y, ts + us);
    forall p: nat | p in w.use ensures !Mine(w.use[p], p, ts + us) {
      assert UseConfined(w, x, p, ts);
    }
    forall k: At | k in w.flat ensures k.t !in ts + us {
      assert Same(w.flat, x.flat, k);
    }
  }

  /** kalloc, as a page of its own. */
  method NewPage(m: Memory) returns (p: nat)
    requires m.Valid()
    modifies m
    ensures m.Valid()
    ensures p == 0 <==> old(m.free) == {}
    ensures p == 0 ==> m.Now() == old(m.Now())
    ensures p != 0 ==> New(old(m.Now()), m.Now(), {p}) && p in m.use && m.use[p] == Other && p !in old(m.use) && |m.free| + 1 == |old(m.free)|
  {
    ValidIsTidy(m);
    ghost var w := m.Now();
    forall r: nat | r !in m.use ensures Fresh(w, {r}) {
      FreshPage(m, r);
    }
    p := m.Kalloc();
    if p != 0 {
      forall q: nat ensures UseConfined(w, m.Now(), q, {p}) && DataConfined(w, m.Now(), q, {p}) {
      }
    }
  }

  /** kvminit_proc (vm.c:54-82) and the stack mapping of allocproc; 0 is a panic, exactly when the
      free pages do not suffice for the table. */
  method KvminitProc(m: Memory, l: Layout, st: Stack) returns (k: nat)
    requires m.Valid() && LayoutOk(l, st)
    modifies m
    ensures k == 0 <==> |old(m.free)| < 1 + KernTables(l, st)
    ensures k != 0 ==> m.Valid() && k !in old(m.use) && Made(old(m.Now()), m.Now(), k) && Kernel(m.flat, k, l, st, 7)
    ensures k != 0 ==> Built(old(m.Now()), m.Now(), k, RegionSlots(l, st, 7), 1)
  {
    ghost var w := m.Now();
    k := MakeRoot(m);
    if k == 0 {
      return;
    }
    assert Kernel(m.flat, k, l, st, 0) by {
      assert Fresh(w, {k});
    }
    var ok := MapRegion(m, k, l, st, 0, w);
    if ok { ok := MapRegion(m, k, l, st, 1, w); }
    if ok { ok := MapRegion(m, k, l, st, 2, w); }
    if ok { ok := MapRegion(m, k, l, st, 3, w); }
    if ok { ok := MapRegion(m, k, l, st, 4, w); }
    if ok { ok := MapRegion(m, k, l, st, 5, w); }
    if ok { ok := MapRegion(m, k, l, st, 6, w); }
    if !ok {
      k := 0;
    } else {
      BuiltMeans(w, m.Now(), k, RegionSlots(l, st, 7), 1);
    }
  }

  lemma SpaceMade(x: World, y: World, s: Space, l: Layout, st: Stack)
    requires LayoutOk(l, st) && s.sz == 0 && s.frame > 0 && s.frame in x.use && x.use[s.frame] == Other
    requires IsRoot(x.use, s.kern) && NoFrames(x.use, s.kern) && Kernel(x.flat, s.kern, l, st, 7)
    requires Confined(x, y, {s.user}) && s.user !in x.use && UserTable(y, s.user, 0, s.frame, l.tramp)
    ensures SpaceOk(y, s, l, st)
  {
    KernelKept(x, y, s.kern, {s.user});
    assert UseConfined(x, y, s.frame, {s.user});
    forall v: nat ensures MirrorAt(y.flat, s, Pages(s.sz), l, st, v) {
      assert MapsTo(x.flat, s.kern, v, KernPte(l, st, 7, v));
      assert Same(x.flat, y.flat, At(s.kern, v));
    }
  }

  /** The places and the pages of a space without user pages. */
  ghost predicate NewSlots(x: World, s: Space, l: Layout, st: Stack)
    requires LayoutOk(l, st)
  {
    Slots(x.use, s.user) == TrapSlots() && Slots(x.use, s.kern) == RegionSlots(l, st, 7)
  }

  /** The pages of such a space: trapframe, two roots, the two tables above trampoline and
      trapframe, and the tables of the kernel mappings. */
  ghost function SpacePages(l: Layout, st: Stack): nat
    requires LayoutOk(l, st)
  {
    5 + KernTables(l, st)
  }

  /** allocproc's memory (proc.c:112-132): a whole new space, when there are pages enough for it; a
      panic, when the trapframe can be had but not the kernel table; else nothing changes. */
  method AllocSpace(m: Memory, l: Layout, st: Stack) returns (o: Outcome, s: Space)
    requires m.Valid() && LayoutOk(l, st)
    modifies m
    ensures o.Done? <==> |old(m.free)| >= SpacePages(l, st)
    ensures o.Panicked? <==> 1 <= |old(m.free)| < 2 + KernTables(l, st)
    ensures o.Failed? ==> m.Valid() && m.Now() == old(m.Now())
    ensures o.Done? ==> m.Valid() && SpaceOk(m.Now(), s, l, st) && s.sz == 0 && New(old(m.Now()), m.Now(), Owners(s))
    ensures o.Done? ==> |m.free| + SpacePages(l, st) == |old(m.free)| && NewSlots(m.Now(), s, l, st)
  {
    ghost var w := m.Now();
    s := Space(0, 0, 0, 0);
    var frame := NewPage(m);
    if frame == 0 {
      return Failed, s;
    }
    ghost var x := m.Now();
    var kern := KvminitProc(m, l, st);
    if kern == 0 {
      return Panicked, s;
    }
    assert UseConfined(x, m.Now(), frame, {kern});
    NewStep(w, x, m.Now(), {frame}, {kern});
    BuiltMeans(x, m.Now(), kern, RegionSlots(l, st, 7), 1);
    o, s := AllocUser(m, w, frame, kern, l, st);
  }

  /** The last part: the user table. */
  method AllocUser(m: Memory, ghost w: World, frame: nat, kern: nat, l: Layout, st: Stack) returns (o: Outcome, s: Space)
    requires m.Valid() && LayoutOk(l, st) && New(w, m.Now(), {frame} + {kern}) && frame > 0 && frame in m.use && m.use[frame] == Other
    requires IsRoot(m.use, kern) && NoFrames(m.use, kern) && Kernel(m.flat, kern, l, st, 7) && Slots(m.use, kern) == RegionSlots(l, st, 7)
    modifies m
    ensures !o.Panicked? && (o.Done? <==> |old(m.free)| >= 3)
    ensures o.Failed? ==> m.Valid() && m.Now() == w
    ensures o.Done? ==> m.Valid() && SpaceOk(m.Now(), s, l, st) && s.sz == 0 && New(w, m.Now(), Owners(s))
    ensures o.Done? ==> |m.free| + 3 == |old(m.free)| && NewSlots(m.Now(), s, l, st)
  {
    ghost var y := m.Now();
    var user := ProcPagetable(m, frame, l.tramp);
    s := Space(user, kern, 0, frame);
    if user == 0 {
      FreeHalf(m, w, frame, kern);
      return Failed, s;
    }
    assert New(w, m.Now(), Owners(s)) by {
      NewStep(w, y, m.Now(), {frame} + {kern}, {user});
      assert {frame} + {kern} + {user} == Owners(s);
    }
    SpaceMade(y, m.Now(), s, l, st);
    assert |m.free| + 3 == |y.free| && NewSlots(m.Now(), s, l, st) by {
      BuiltMeans(y, m.Now(), user, TrapSlots(), 1);
      TrapSlotsAre();
      SlotsKept(y, m.Now(), kern, {user});
    }
    o := Done;
  }

  /** freeproc when there is no user table yet. */
  method FreeHalf(m: Memory, ghost w: World, frame: nat, kern: nat)
    requires m.Valid() && New(w, m.Now(), {frame} + {kern}) && frame in m.use && m.use[frame] == Other
    requires IsRoot(m.use, kern) && NoFrames(m.use, kern)
    modifies m
    ensures m.Valid() && m.Now() == w
  {
    ghost var x := m.Now();
    ValidIsTidy(m);
    FreePage(m, frame);
    ghost var y := m.Now();
    KernelKept(x, y, kern, {frame});
    ReleaseTables(m, kern, false);
    ReleasedBoth(x, y, m.Now(), {frame}, {kern});
    ReleasedIsBack(w, x, m.Now(), {frame} + {kern});
  }

  // ---------------------------------------------------------------------------------------
  // Keeping the mirror
  // ---------------------------------------------------------------------------------------

  lemma UserGrown(w: World, x: World, t: nat, n: nat, k: nat, img: Images, frame: nat, tramp: nat)
    requires UserTable(w, t, n, frame, tramp) && Grown(w, x, t, n, k, img) && n + k < TRAPPAGE
    ensures UserTable(x, t, n + k, frame, tramp)
  {
    GrownIsBacked(w, x, t, n, k, img);
    forall i: nat | 0 <= i < 0 + (n + k)
      ensures At(t, i) in x.flat && x.flat[At(t, i)].ppn in x.use && x.use[x.flat[At(t, i)].ppn] == Frame(t, i)
    {
      if i < n {
        assert Same(w.flat, x.flat, At(t, i));
      }
    }
    forall a: At | a in x.flat && a.t == t ensures a.v < n + k || a.v == TOP || a.v == TRAPPAGE {
      assert n <= a.v < n + k || Same(w.flat, x.flat, a);
    }
    assert Same(w.flat, x.flat, At(t, TOP)) && Same(w.flat, x.flat, At(t, TRAPPAGE));
  }

  lemma UserTables(w: World, x: World, t: nat, n: nat, r: nat, frame: nat, tramp: nat)
    requires UserTable(w, t, n, frame, tramp) && x.flat == w.flat && OnlyTables(w.use, w.free, x.use, x.free, r)
    ensures UserTable(x, t, n, frame, tramp)
  {
  }

  /** New table pages alone change nothing. */
  lemma SpaceTables(w: World, x: World, s: Space, l: Layout, st: Stack, t: nat)
    requires SpaceOk(w, s, l, st) && x.flat == w.flat && x.data == w.data && OnlyTables(w.use, w.free, x.use, x.free, t)
    ensures SpaceOk(x, s, l, st)
  {
    UserTables(w, x, s.user, Pages(s.sz), t, s.frame, l.tramp);
  }

  /** What kvmcopy needs: it never meets a mapped page ("remap") in the kernel table. */
  lemma NeverRemaps(flat: Flat, s: Space, n: nat, l: Layout, st: Stack, i: nat)
    requires LayoutOk(l, st) && Mirror(flat, s, n, l, st) && i < FIRST
    ensures At(s.kern, i) in flat <==> i < n
  {
    assert MirrorAt(flat, s, n, l, st, i);
    KernelIsHigh(l, st, 7, i);
  }

  lemma MirrorGrown(w: World, x: World, s: Space, n: nat, k: nat, l: Layout, st: Stack)
    requires LayoutOk(l, st) && Mirror(w.flat, s, n, l, st) && s.user != s.kern && Mirrored(w, x, s.user, s.kern, n, k)
    ensures Mirror(x.flat, s, n + k, l, st)
  {
    var n' := n + k;
    forall v: nat ensures MirrorAt(x.flat, s, n', l, st, v) {
      assert MirrorAt(w.flat, s, n, l, st, v);
      assert Same(w.flat, x.flat, At(s.user, v));
      assert n <= v < n + k || Same(w.flat, x.flat, At(s.kern, v));
      assert At(s.kern, v).v == v;
    }
  }

  /** Changes to the user table above page n do not disturb the mirror of its first n pages. */
  lemma MirrorSame(flat: Flat, flat': Flat, s: Space, n: nat, l: Layout, st: Stack)
    requires LayoutOk(l, st) && Mirror(flat, s, n, l, st)
    requires forall a: At :: a.t != s.user || a.v < n ==> Same(flat, flat', a)
    requires s.user != s.kern
    ensures Mirror(flat', s, n, l, st)
  {
    forall v: nat ensures MirrorAt(flat', s, n, l, st, v) {
      assert MirrorAt(flat, s, n, l, st, v);
      assert Same(flat, flat', At(s.kern, v));
      assert v < n ==> Same(flat, flat', At(s.user, v));
    }
  }

  /** Pages from m to n of the kernel table unmapped. */
  lemma MirrorCut(flat: Flat, flat': Flat, s: Space, n: nat, n': nat, l: Layout, st: Stack)
    requires LayoutOk(l, st) && Mirror(flat, s, n, l, st) && n' <= n <= FIRST && s.user != s.kern
    requires Unmapped(flat, flat', s.kern, n', n - n')
    ensures Mirror(flat', s, n', l, st)
  {
    forall v: nat ensures MirrorAt(flat', s, n', l, st, v) {
      assert MirrorAt(flat, s, n, l, st, v);
      assert At(s.kern, v).v == v && At(s.user, v).t == s.user;
      if v < FIRST {
        KernelIsHigh(l, st, 7, v);
      }
    }
  }

  lemma UserShrunk(w: World, x: World, t: nat, n: nat, n': nat, frame: nat, tramp: nat)
    requires UserTable(w, t, n, frame, tramp) && n' <= n && Shrunk(w, x, t, n', n - n')
    ensures UserTable(x, t, n', frame, tramp)
  {
    assert forall i: nat :: i < n' ==> At(t, i) in w.flat ==> At(t, i) in x.flat && x.flat[At(t, i)] == w.flat[At(t, i)];
  }

  /** Pages that stay keep their bytes, and the first n pages of t keep their entries. */
  ghost predicate KeepsPages(w: World, x: World, t: nat, n: nat) {
    && (forall p: nat :: p in w.data && p in x.data && SameUse(w.use, x.use, p) ==> x.data[p] == w.data[p])
    && (forall i: nat :: i < n ==> Same(w.flat, x.flat, At(t, i)))
  }

  /** The mirror of a grown user table: success, or what the failure exit leaves. */
  method MirrorRest(m: Memory, s: Space, ghost n: nat, sz: nat, ghost l: Layout, ghost st: Stack) returns (ok: bool)
    requires m.Valid() && LayoutOk(l, st) && s.user != s.kern && s.sz <= sz && n == Pages(s.sz) && s.sz <= PLIC
    requires UserTable(m.Now(), s.user, Pages(sz), s.frame, l.tramp) && IsRoot(m.use, s.kern) && NoFrames(m.use, s.kern)
    requires Mirror(m.flat, s, n, l, st)
    modifies m
    ensures m.Valid() && IsRoot(m.use, s.kern) && NoFrames(m.use, s.kern)
    ensures UserTable(m.Now(), s.user, Pages(sz), s.frame, l.tramp) && Confined(old(m.Now()), m.Now(), {s.kern})
    ensures m.data == old(m.data) && forall p: nat :: p in old(m.use) ==> SameUse(old(m.use), m.use, p)
    ensures ok ==> sz <= PLIC && Mirror(m.flat, s, Pages(sz), l, st)
    ensures !ok ==> Pages(sz) > n && Mirror(m.flat, s, if sz > PLIC then n else 0, l, st)
    ensures n <= Pages(sz) && (ok <==> sz <= PLIC && |old(m.free)| >= |Lacking(old(m.use), s.kern, n, Pages(sz) - n)|)
    ensures ok ==> |m.free| + |Lacking(old(m.use), s.kern, n, Pages(sz) - n)| == |old(m.free)|
  {
    ghost var w := m.Now();
    PagesGrow(s.sz, sz);
    if sz <= PLIC {
      forall i: nat | i < Pages(sz) ensures At(s.kern, i) in m.flat <==> i < n {
        NeverRemaps(m.flat, s, n, l, st, i);
      }
    }
    ok := Kvmcopy(m, s.user, s.kern, s.sz, sz);
    AfterKvmcopy(w, m.Now(), s, n, sz, l, st, ok);
    if ok {
      SpentSize(w.use, w.free, m.use, m.free, s.kern, Lacking(w.use, s.kern, n, Pages(sz) - n));
    }
  }

  lemma AfterKvmcopy(w: World, x: World, s: Space, n: nat, sz: nat, l: Layout, st: Stack, ok: bool)
    requires LayoutOk(l, st) && s.user != s.kern && n <= Pages(sz) && n <= FIRST && NoFrames(w.use, s.kern)
    requires UserTable(w, s.user, Pages(sz), s.frame, l.tramp) && Mirror(w.flat, s, n, l, st)
    requires if ok then Mirrored(w, x, s.user, s.kern, n, Pages(sz) - n) else if sz > PLIC then x == w else Cut(w, x, s.kern, n)
    ensures NoFrames(x.use, s.kern) && UserTable(x, s.user, Pages(sz), s.frame, l.tramp) && Confined(w, x, {s.kern})
    ensures x.data == w.data && forall p: nat :: p in w.use ==> SameUse(w.use, x.use, p)
    ensures Mirror(x.flat, s, if ok then Pages(sz) else if sz > PLIC then n else 0, l, st)
  {
    if ok {
      MirrorGrown(w, x, s, n, Pages(sz) - n, l, st);
      MirroredIsConfined(w, x, s.user, s.kern, n, Pages(sz) - n);
    } else if sz <= PLIC {
      MirrorCut(w.flat, x.flat, s, n, 0, l, st);
      CutIsConfined(w, x, s.kern, n);
    } else {
      NothingIsConfined(w, {s.kern});
    }
    UserTableKept(w, x, s.user, Pages(sz), s.frame, l.tramp, {s.kern});
  }

  lemma MirroredIsConfined(w: World, x: World, t: nat, k: nat, v: nat, n: nat)
    requires Mirrored(w, x, t, k, v, n)
    ensures Confined(w, x, {k}) && (NoFrames(w.use, k) ==> NoFrames(x.use, k))
  {
    TablesAreConfined(w, x, k);
  }

  lemma CutIsConfined(w: World, x: World, k: nat, n: nat)
    requires Cut(w, x, k, n)
    ensures Confined(w, x, {k}) && (NoFrames(w.use, k) ==> NoFrames(x.use, k))
  {
    forall a: At | a.t != k ensures Same(w.flat, x.flat, a) {
    }
    TablesAreConfined(w, x, k);
  }

  lemma NothingIsConfined(w: World, ts: set<nat>)
    ensures Confined(w, w, ts)
  {
  }

  // ---------------------------------------------------------------------------------------
  // growproc
  // ---------------------------------------------------------------------------------------

  /** `sz + n` as C computes it in a 32-bit and in a 64-bit unsigned integer. */
  function Uint32(a: int): nat {
    a % 0x1_0000_0000
  }

  function Uint64(a: int): nat {
    a % 0x1_0000_0000_0000_0000
  }

  /** The integer of that width which differs from a by a multiple of the modulus. */
  lemma WrapLaw(a: int)
    ensures Uint32(a) < 0x1_0000_0000 && (a - Uint32(a)) % 0x1_0000_0000 == 0
    ensures Uint64(a) < 0x1_0000_0000_0000_0000 && (a - Uint64(a)) % 0x1_0000_0000_0000_0000 == 0
  {
  }

  /** How growproc ended. */
  datatype Growth = Grew | Refused | Torn

  /** The exit at proc.c:272-274: the user table has grown but sz has not, and the mirror is as
      before, or empty when memory ran out. */
  ghost predicate TornSpace(w: World, s: Space, sz: nat, l: Layout, st: Stack) {
    && LayoutOk(l, st) && Pages(sz) > Pages(s.sz)
    && UserTable(w, s.user, Pages(sz), s.frame, l.tramp) && IsRoot(w.use, s.kern) && NoFrames(w.use, s.kern)
    && Mirror(w.flat, s, if sz > PLIC then Pages(s.sz) else 0, l, st)
  }

  lemma RoomAbove(w: World, s: Space, newsz: nat, l: Layout, st: Stack)
    requires SpaceOk(w, s, l, st) && s.sz <= newsz < 0x1_0000_0000
    ensures Pages(s.sz) <= Pages(newsz) < TRAPPAGE && Room(w, s.user, Pages(s.sz), Pages(newsz) - Pages(s.sz))
  {
    PagesGrow(s.sz, newsz);
  }

  /** The free pages that the user half, and then the kernel half, of growing to newsz takes. */
  ghost function UserNeed(w: World, s: Space, newsz: nat): nat
    requires s.sz <= newsz
  {
    PagesGrow(s.sz, newsz);
    GrowNeed(w.use, s.user, Pages(s.sz), Pages(newsz) - Pages(s.sz))
  }

  ghost function KernNeed(w: World, s: Space, newsz: nat): nat
    requires s.sz <= newsz
  {
    PagesGrow(s.sz, newsz);
    |Lacking(w.use, s.kern, Pages(s.sz), Pages(newsz) - Pages(s.sz))|
  }

  ghost predicate NewPagesAreZero(x: World, t: nat, sz: nat, newsz: nat) {
    Pages(sz) <= Pages(newsz) && HoldsAll(x, t, Pages(sz), Pages(newsz) - Pages(sz), Zeroed(Pages(newsz) - Pages(sz)))
  }

  /** growproc with n > 0. */
  method Grow(m: Memory, s: Space, newsz: nat, ghost l: Layout, ghost st: Stack) returns (g: Growth)
    requires m.Valid() && SpaceOk(m.Now(), s, l, st) && s.sz < newsz < 0x1_0000_0000
    modifies m
    ensures m.Valid() && Confined(old(m.Now()), m.Now(), {s.user, s.kern}) && KeepsPages(old(m.Now()), m.Now(), s.user, Pages(s.sz))
    ensures g.Grew? ==> SpaceOk(m.Now(), s.(sz := newsz), l, st)
    ensures g.Grew? ==> NewPagesAreZero(m.Now(), s.user, s.sz, newsz)
    ensures g.Refused? ==> SpaceOk(m.Now(), s, l, st) && m.flat == old(m.flat) && m.data == old(m.data)
    ensures g.Torn? ==> TornSpace(m.Now(), s, newsz, l, st)
    ensures g.Refused? <==> |old(m.free)| < UserNeed(old(m.Now()), s, newsz)
    ensures g.Torn? <==> |old(m.free)| >= UserNeed(old(m.Now()), s, newsz)
                         && (newsz > PLIC || |old(m.free)| < UserNeed(old(m.Now()), s, newsz) + KernNeed(old(m.Now()), s, newsz))
    ensures g.Grew? ==> |m.free| + UserNeed(old(m.Now()), s, newsz) + KernNeed(old(m.Now()), s, newsz) == |old(m.free)|
  {
    ghost var w := m.Now();
    RoomAbove(w, s, newsz, l, st);
    var sz := Uvmalloc(m, s.user, s.sz, newsz);
    ghost var x := m.Now();
    ghost var n, k := Pages(s.sz), Pages(newsz) - Pages(s.sz);
    if sz == 0 {
      GrowRefused(w, x, s, l, st);
      return Refused;
    }
    AfterGrown(w, x, s, n, k, Zeroed(k), l, st);
    assert |x.free| + UserNeed(w, s, newsz) == |w.free| && Lacking(x.use, s.kern, n, k) == Lacking(w.use, s.kern, n, k) by {
      PaidLeft(w, x, s.user, Lacking(w.use, s.user, n, k), k);
      GrownIsConfined(w, x, s.user, n, k, Zeroed(k));
      LackingKept(w, x, s.kern, {s.user}, n, k);
    }
    var ok := MirrorRest(m, s, n, newsz, l, st);
    GrowEnds(w, x, m.Now(), s, newsz, Zeroed(k), l, st, ok);
    g := if ok then Grew else Torn;
  }

  lemma GrowRefused(w: World, x: World, s: Space, l: Layout, st: Stack)
    requires SpaceOk(w, s, l, st) && x.flat == w.flat && x.data == w.data && OnlyTables(w.use, w.free, x.use, x.free, s.user)
    ensures SpaceOk(x, s, l, st) && Confined(w, x, {s.user, s.kern}) && KeepsPages(w, x, s.user, Pages(s.sz))
  {
    SpaceTables(w, x, s, l, st, s.user);
    TablesAreConfined(w, x, s.user);
    ConfinedMore(w, x, {s.user}, {s.user, s.kern});
  }

  lemma GrowEnds(w: World, x: World, y: World, s: Space, newsz: nat, img: Images, l: Layout, st: Stack, ok: bool)
    requires SpaceOk(w, s, l, st) && s.sz <= newsz
    requires Pages(s.sz) <= Pages(newsz) && Grown(w, x, s.user, Pages(s.sz), Pages(newsz) - Pages(s.sz), img)
    requires s.frame in x.use && x.use[s.frame] == Other && Confined(x, y, {s.kern}) && y.data == x.data
    requires UserTable(y, s.user, Pages(newsz), s.frame, l.tramp) && IsRoot(y.use, s.kern) && NoFrames(y.use, s.kern)
    requires ok ==> newsz <= PLIC && Mirror(y.flat, s, Pages(newsz), l, st)
    requires !ok ==> Pages(newsz) > Pages(s.sz) && Mirror(y.flat, s, if newsz > PLIC then Pages(s.sz) else 0, l, st)
    ensures Confined(w, y, {s.user, s.kern}) && KeepsPages(w, y, s.user, Pages(s.sz))
    ensures HoldsAll(y, s.user, Pages(s.sz), Pages(newsz) - Pages(s.sz), img)
    ensures if ok then SpaceOk(y, s.(sz := newsz), l, st) else TornSpace(y, s, newsz, l, st)
  {
    AfterGrow(w, x, y, s, Pages(s.sz), Pages(newsz) - Pages(s.sz), img);
    assert IsRoot(w.use, s.kern);
    assert UseConfined(x, y, s.frame, {s.kern});
    if ok {
      MirrorResized(y.flat, s, newsz, Pages(newsz), l, st);
    }
  }

  /** The size field does not matter to the mirror of n pages. */
  lemma MirrorResized(flat: Flat, s: Space, sz: nat, n: nat, l: Layout, st: Stack)
    requires LayoutOk(l, st) && Mirror(flat, s, n, l, st)
    ensures Mirror(flat, s.(sz := sz), n, l, st)
  {
    forall v: nat ensures MirrorAt(flat, s.(sz := sz), n, l, st, v) {
      assert MirrorAt(flat, s, n, l, st, v);
    }
  }

  lemma AfterGrown(w: World, x: World, s: Space, n: nat, k: nat, img: Images, l: Layout, st: Stack)
    requires SpaceOk(w, s, l, st) && n == Pages(s.sz) && n + k < TRAPPAGE && Grown(w, x, s.user, n, k, img)
    ensures UserTable(x, s.user, n + k, s.frame, l.tramp) && IsRoot(x.use, s.kern) && NoFrames(x.use, s.kern)
    ensures Mirror(x.flat, s, n, l, st) && s.frame in x.use && x.use[s.frame] == Other
  {
    UserGrown(w, x, s.user, n, k, img, s.frame, l.tramp);
    GrownIsConfined(w, x, s.user, n, k, img);
    KernelKept(w, x, s.kern, {s.user});
    MirrorSame(w.flat, x.flat, s, n, l, st);
  }

  /** Pages n .. n+k of t hold their images. */
  ghost predicate HoldsAll(x: World, t: nat, n: nat, k: nat, img: Images) {
    k <= |img| && forall i: nat :: i < k ==> Holds(x, t, n + i, img[i])
  }

  lemma AfterGrow(w: World, x: World, y: World, s: Space, n: nat, k: nat, img: Images)
    requires Grown(w, x, s.user, n, k, img) && Confined(x, y, {s.kern}) && s.user != s.kern
    requires y.data == x.data
    ensures Confined(w, y, {s.user, s.kern}) && KeepsPages(w, y, s.user, n) && HoldsAll(y, s.user, n, k, img)
  {
    forall i: nat | i < k ensures Holds(y, s.user, n + i, img[i]) {
      assert Holds(x, s.user, n + i, img[i]);
      assert Same(x.flat, y.flat, At(s.user, n + i)) && UseConfined(x, y, x.flat[At(s.user, n + i)].ppn, {s.kern});
    }
    GrownIsConfined(w, x, s.user, n, k, img);
    ConfinedMore(w, x, {s.user}, {s.user, s.kern});
    ConfinedMore(x, y, {s.kern}, {s.user, s.kern});
    ConfinedTrans(w, x, y, {s.user, s.kern});
    forall i: nat | i < n ensures Same(w.flat, y.flat, At(s.user, i)) {
      assert Same(w.flat, x.flat, At(s.user, i)) && Same(x.flat, y.flat, At(s.user, i));
    }
  }

  /** A size that would become negative wraps to one beyond any process size. */
  lemma Wraps(sz: nat, n: int)
    requires sz <= PLIC && -0x8000_0000 <= n < 0
    ensures if sz + n >= 0 then Uint32(sz + n) == Uint64(sz + n) == sz + n else Uint32(sz + n) > sz && Uint64(sz + n) > sz
  {
  }

  /** growproc with n < 0. */
  method Shrink(m: Memory, s: Space, n: int, ghost l: Layout, ghost st: Stack) returns (sz: nat)
    requires m.Valid() && SpaceOk(m.Now(), s, l, st) && -0x8000_0000 <= n < 0
    modifies m
    ensures m.Valid() && Confined(old(m.Now()), m.Now(), {s.user, s.kern}) && KeepsPages(old(m.Now()), m.Now(), s.user, Pages(sz))
    ensures sz == (if s.sz + n < 0 then s.sz else s.sz + n) && SpaceOk(m.Now(), s.(sz := sz), l, st)
  {
    Wraps(s.sz, n);
    sz := ShrinkTo(m, s, Uint32(s.sz + n), Uint64(s.sz + n), if s.sz + n < 0 then s.sz else s.sz + n, l, st);
  }

  /** Both tables cut down to newsz, which is what the two wrapped sizes come to. */
  method ShrinkTo(m: Memory, s: Space, new32: nat, new64: nat, ghost newsz: nat, ghost l: Layout, ghost st: Stack) returns (sz: nat)
    requires m.Valid() && SpaceOk(m.Now(), s, l, st)
    requires (newsz < s.sz && new32 == newsz && new64 == newsz) || (newsz == s.sz && new32 >= newsz && new64 >= newsz)
    modifies m
    ensures m.Valid() && Confined(old(m.Now()), m.Now(), {s.user, s.kern}) && KeepsPages(old(m.Now()), m.Now(), s.user, Pages(newsz))
    ensures sz == newsz && SpaceOk(m.Now(), s.(sz := newsz), l, st)
  {
    ghost var w := m.Now();
    PagesGrow(newsz, s.sz);
    assert Backed(m.use, m.flat, s.user, Pages(newsz), Pages(s.sz) - Pages(newsz));
    sz := Uvmdealloc(m, s.user, s.sz, new32);
    ghost var x := m.Now();
    AfterDealloc(w, x, s, newsz, l, st);
    var _ := Kvmdealloc(m, s.kern, s.sz, new64);
    AfterShrink(w, x, m.Now(), s, newsz, l, st);
  }

  lemma AfterDealloc(w: World, x: World, s: Space, newsz: nat, l: Layout, st: Stack)
    requires SpaceOk(w, s, l, st) && newsz <= s.sz && Pages(newsz) <= Pages(s.sz)
    requires if newsz < s.sz then Shrunk(w, x, s.user, Pages(newsz), Pages(s.sz) - Pages(newsz)) else x == w
    ensures UserTable(x, s.user, Pages(newsz), s.frame, l.tramp) && IsRoot(x.use, s.kern) && NoFrames(x.use, s.kern)
    ensures Confined(w, x, {s.user}) && s.frame in x.use && x.use[s.frame] == Other
    ensures forall i: nat :: i < Pages(s.sz) ==> At(s.kern, i) in x.flat
  {
    if newsz < s.sz {
      UserShrunk(w, x, s.user, Pages(s.sz), Pages(newsz), s.frame, l.tramp);
      ShrunkIsConfined(w, x, s.user, Pages(newsz), Pages(s.sz) - Pages(newsz));
      KernelKept(w, x, s.kern, {s.user});
    }
    forall i: nat | i < Pages(s.sz) ensures At(s.kern, i) in x.flat {
      assert MirrorAt(w.flat, s, Pages(s.sz), l, st, i);
      assert newsz < s.sz ==> Same(w.flat, x.flat, At(s.kern, i));
    }
  }

  /** Both tables cut down to newsz: mirror again. */
  lemma AfterShrink(w: World, x: World, y: World, s: Space, newsz: nat, l: Layout, st: Stack)
    requires SpaceOk(w, s, l, st) && newsz <= s.sz && Pages(newsz) <= Pages(s.sz)
    requires if newsz < s.sz then Shrunk(w, x, s.user, Pages(newsz), Pages(s.sz) - Pages(newsz)) else x == w
    requires UserTable(x, s.user, Pages(newsz), s.frame, l.tramp) && Confined(w, x, {s.user})
    requires IsRoot(x.use, s.kern) && NoFrames(x.use, s.kern) && s.frame in x.use && x.use[s.frame] == Other
    requires y.data == x.data && y.use == x.use && y.free == x.free
    requires if newsz < s.sz then Unmapped(x.flat, y.flat, s.kern, Pages(newsz), Pages(s.sz) - Pages(newsz)) else y.flat == x.flat
    ensures SpaceOk(y, s.(sz := newsz), l, st) && Confined(w, y, {s.user, s.kern}) && KeepsPages(w, y, s.user, Pages(newsz))
  {
    forall a: At | a.t != s.kern ensures Same(x.flat, y.flat, a) {
    }
    TablesAreConfined(x, y, s.kern);
    ConfinedMore(w, x, {s.user}, {s.user, s.kern});
    ConfinedMore(x, y, {s.kern}, {s.user, s.kern});
    ConfinedTrans(w, x, y, {s.user, s.kern});
    UserTableKept(x, y, s.user, Pages(newsz), s.frame, l.tramp, {s.kern});
    MirrorShrunk(w, x, y, s, newsz, l, st);
    forall i: nat | i < Pages(newsz) ensures Same(w.flat, y.flat, At(s.user, i)) {
      assert At(s.user, i) in x.flat && At(s.user, i) in w.flat;
    }
  }

  lemma MirrorShrunk(w: World, x: World, y: World, s: Space, newsz: nat, l: Layout, st: Stack)
    requires SpaceOk(w, s, l, st) && newsz <= s.sz && Pages(newsz) <= Pages(s.sz)
    requires if newsz < s.sz then Shrunk(w, x, s.user, Pages(newsz), Pages(s.sz) - Pages(newsz)) else x == w
    requires if newsz < s.sz then Unmapped(x.flat, y.flat, s.kern, Pages(newsz), Pages(s.sz) - Pages(newsz)) else y.flat == x.flat
    ensures Mirror(y.flat, s.(sz := newsz), Pages(newsz), l, st)
  {
    var s' := s.(sz := newsz);
    forall v: nat ensures MirrorAt(y.flat, s', Pages(newsz), l, st, v) {
      assert MirrorAt(w.flat, s, Pages(s.sz), l, st, v);
      assert At(s.kern, v).v == v && At(s.user, v).v == v;
      if v < FIRST {
        KernelIsHigh(l, st, 7, v);
      }
    }
  }

  /** How growproc by n ends, from the state before: refused without pages for the user half, torn
      without pages for the kernel half or beyond PLIC. */
  ghost function GrowthOf(w: World, s: Space, n: int): Growth {
    if n <= 0 then Grew
    else if |w.free| < UserNeed(w, s, s.sz + n) then Refused
    else if s.sz + n > PLIC || |w.free| < UserNeed(w, s, s.sz + n) + KernNeed(w, s, s.sz + n) then Torn
    else Grew
  }

  /** growproc (proc.c:260-282), with n a 32-bit int. */
  method GrowProc(m: Memory, s: Space, n: int, ghost l: Layout, ghost st: Stack) returns (g: Growth, s': Space)
    requires m.Valid() && SpaceOk(m.Now(), s, l, st) && -0x8000_0000 <= n < 0x8000_0000
    modifies m
    ensures m.Valid() && Confined(old(m.Now()), m.Now(), {s.user, s.kern})
    ensures s' == s.(sz := s'.sz) && KeepsPages(old(m.Now()), m.Now(), s.user, Pages(if s'.sz < s.sz then s'.sz else s.sz))
    ensures g.Grew? ==> SpaceOk(m.Now(), s', l, st) && s'.sz == (if s.sz + n < 0 then s.sz else s.sz + n)
    ensures g.Grew? && n > 0 ==> NewPagesAreZero(m.Now(), s.user, s.sz, s'.sz)
    ensures g.Refused? ==> n > 0 && s' == s && SpaceOk(m.Now(), s, l, st) && m.flat == old(m.flat) && m.data == old(m.data)
    ensures g.Torn? ==> n > 0 && s' == s && TornSpace(m.Now(), s, s.sz + n, l, st)
    ensures g == GrowthOf(old(m.Now()), s, n)
    ensures g.Grew? && n > 0 ==> |m.free| + UserNeed(old(m.Now()), s, s.sz + n) + KernNeed(old(m.Now()), s, s.sz + n) == |old(m.free)|
  {
    g, s' := Grew, s;
    if n > 0 {
      g := Grow(m, s, Uint32(s.sz + n), l, st);
      s' := if g.Grew? then s.(sz := Uint32(s.sz + n)) else s;
    } else if n < 0 {
      var sz := Shrink(m, s, n, l, st);
      s' := s.(sz := sz);
    } else {
      NothingIsConfined(m.Now(), {s.user, s.kern});
    }
  }

  /** A torn space is not whole: the page at its size is mapped already, so growing again would
      reach "remap". */
  lemma TornIsBroken(w: World, s: Space, sz: nat, l: Layout, st: Stack)
    requires TornSpace(w, s, sz, l, st)
    ensures !SpaceOk(w, s, l, st) && At(s.user, Pages(s.sz)) in w.flat
  {
  }
}

/**
 The calls that make and replace a process's memory: userinit and fork (proc.c), exec (exec.c).
 */
module ForkExec {
  import opened Common
  import opened Riscv
  import opened PageTable
  import opened UserMemory
  import opened ProcMemory

  // ---------------------------------------------------------------------------------------
  // fork
  // ---------------------------------------------------------------------------------------

  lemma PresentPages(m: Memory, s: Space, l: Layout, st: Stack)
    requires m.Valid() && SpaceOk(m.Now(), s, l, st)
    ensures forall i: nat :: i < Pages(s.sz) ==> Present(m.Now(), s.user, i)
  {
    m.Open();
    forall i: nat | i < Pages(s.sz) ensures Present(m.Now(), s.user, i) {
      assert At(s.user, i) in m.flat;
      LeafyEntry(m.tab, m.use, m.flat, s.user, i);
    }
  }

  /** The child c holds the parent's pages, as they were in w, in frames of its own. */
  ghost predicate Twin(w: World, x: World, s: Space, c: Space) {
    forall i: nat :: i < Pages(s.sz) ==> Present(w, s.user, i) && Holds(x, c.user, i, ImageOf(w, s.user, i))
  }

  /** Field by field: the child's page has the parent's bytes and flags, in a frame of its own. */
  lemma TwinLaw(w: World, x: World, s: Space, c: Space, i: nat)
    requires Twin(w, x, s, c) && i < Pages(s.sz)
    ensures At(s.user, i) in w.flat && At(c.user, i) in x.flat
    ensures var e, f := w.flat[At(s.user, i)], x.flat[At(c.user, i)];
            && f.v && f.r == e.r && f.w == e.w && f.x == e.x && f.u == e.u
            && e.ppn in w.data && f.ppn in x.data && x.data[f.ppn] == w.data[e.ppn]
            && f.ppn in x.use && x.use[f.ppn] == Frame(c.user, i)
  {
    assert Present(w, s.user, i) && Holds(x, c.user, i, ImageOf(w, s.user, i));
  }

  /** The free pages that copying n pages takes, in a new user table and in a new kernel table. */
  ghost function CopyNeed(n: nat): nat {
    n + |PathSlots(0, n) - TrapSlots()|
  }

  ghost function MirrorNeed(l: Layout, st: Stack, n: nat): nat
    requires LayoutOk(l, st)
  {
    |PathSlots(0, n) - RegionSlots(l, st, 7)|
  }

  /** How fork of a process of n pages ends when `free` pages are free. */
  ghost function ForkOf(free: nat, n: nat, l: Layout, st: Stack): Outcome
    requires LayoutOk(l, st)
  {
    if free == 0 then Failed
    else if free < 2 + KernTables(l, st) then Panicked
    else if free < SpacePages(l, st) + CopyNeed(n) then Failed
    else if free < SpacePages(l, st) + CopyNeed(n) + MirrorNeed(l, st, n) then Panicked
    else Done
  }

  /** fork's memory (proc.c:294-311), with its end foretold by the number of free pages. */
  method ForkSpace(m: Memory, s: Space, l: Layout, ghost st: Stack, st': Stack) returns (o: Outcome, c: Space)
    requires m.Valid() && SpaceOk(m.Now(), s, l, st) && LayoutOk(l, st')
    modifies m
    ensures o == ForkOf(|old(m.free)|, Pages(s.sz), l, st')
    ensures o.Failed? ==> m.Valid() && m.Now() == old(m.Now())
    ensures o.Done? ==> m.Valid() && New(old(m.Now()), m.Now(), Owners(c)) && Owners(c) !! Owners(s)
    ensures o.Done? ==> SpaceOk(m.Now(), s, l, st) && SpaceOk(m.Now(), c, l, st') && c.sz == s.sz
    ensures o.Done? ==> Twin(old(m.Now()), m.Now(), s, c)
  {
    ghost var w := m.Now();
    PresentPages(m, s, l, st);
    o, c := AllocSpace(m, l, st');
    if !o.Done? {
      return;
    }
    NewIsApart(w, m.Now(), s, Owners(c), l, st);
    o := ForkCopy(m, s, c, w, l, st, st');
    if o.Done? {
      NewIsApart(w, m.Now(), s, Owners(c), l, st);
      assert Owners(c) == Owners(c.(sz := s.sz));
    }
    c := c.(sz := s.sz);
  }

  lemma NewLacking(x: World, c: Space, l: Layout, st: Stack, n: nat)
    requires LayoutOk(l, st) && NewSlots(x, c, l, st)
    ensures GrowNeed(x.use, c.user, 0, n) == CopyNeed(n) && |Lacking(x.use, c.kern, 0, n)| == MirrorNeed(l, st, n)
  {
    LackingIs(x.use, c.user, 0, n);
    LackingIs(x.use, c.kern, 0, n);
  }

  /** The two copies of fork. */
  method ForkCopy(m: Memory, s: Space, c: Space, ghost w: World, l: Layout, ghost st: Stack, ghost st': Stack) returns (o: Outcome)
    requires m.Valid() && SpaceOk(w, s, l, st) && SpaceOk(m.Now(), s, l, st) && SpaceOk(m.Now(), c, l, st') && c.sz == 0 && NewSlots(m.Now(), c, l, st')
    requires New(w, m.Now(), Owners(c)) && Owners(c) !! Owners(s) && forall i: nat :: i < Pages(s.sz) ==> Present(w, s.user, i)
    modifies m
    ensures o == if |old(m.free)| < CopyNeed(Pages(s.sz)) then Failed
                 else if |old(m.free)| < CopyNeed(Pages(s.sz)) + MirrorNeed(l, st', Pages(s.sz)) then Panicked else Done
    ensures o.Failed? ==> m.Valid() && m.Now() == w
    ensures o.Done? ==> m.Valid() && New(w, m.Now(), Owners(c)) && SpaceOk(m.Now(), c.(sz := s.sz), l, st') && Twin(w, m.Now(), s, c)
  {
    ghost var x := m.Now();
    PresentPages(m, s, l, st);
    NewLacking(x, c, l, st', Pages(s.sz));
    var ok := Uvmcopy(m, s.user, c.user, s.sz);
    if !ok {
      ForkUndone(w, x, m.Now(), c, l, st');
      ForkBack(m, c, w, l, st');
      return Failed;
    }
    ghost var y := m.Now();
    o := ForkMirror(m, c, s.sz, x, PageImages(x, s.user, Pages(s.sz)), l, st');
    if o.Done? {
      ForkIsDone(w, x, y, m.Now(), s, c, l, st, st');
    }
  }

  /** uvmcopy failed: freeproc of the child. */
  method ForkBack(m: Memory, c: Space, ghost w: World, ghost l: Layout, ghost st': Stack)
    requires m.Valid() && New(w, m.Now(), Owners(c)) && SpaceOk(m.Now(), c, l, st')
    modifies m
    ensures m.Valid() && m.Now() == w
  {
    ghost var y := m.Now();
    ValidIsTidy(m);
    FreeSpace(m, c, l, st');
    ReleasedIsBack(w, y, m.Now(), Owners(c));
  }

  /** uvmcopy done, from x on: kvmcopy; when it fails, freeproc of the child, whose sz is still 0. */
  method ForkMirror(m: Memory, c: Space, sz: nat, ghost x: World, ghost img: Images, ghost l: Layout, ghost st': Stack) returns (o: Outcome)
    requires m.Valid() && SpaceOk(x, c, l, st') && c.sz == 0 && sz <= PLIC && NewSlots(x, c, l, st')
    requires Grown(x, m.Now(), c.user, 0, Pages(sz), img) && Paid(x, m.Now(), c.user, Lacking(x.use, c.user, 0, Pages(sz)), Pages(sz))
    modifies m
    ensures o == if |x.free| < CopyNeed(Pages(sz)) + MirrorNeed(l, st', Pages(sz)) then Panicked else Done
    ensures o.Done? ==> m.Valid() && Mirrors(old(m.Now()), m.Now(), c, sz, Pages(sz), l, st')
  {
    assert |m.free| + CopyNeed(Pages(sz)) == |x.free| by {
      NewLacking(x, c, l, st', Pages(sz));
      PaidLeft(x, m.Now(), c.user, Lacking(x.use, c.user, 0, Pages(sz)), Pages(sz));
    }
    var ok := MirrorNew(m, c, sz, x, img, l, st');
    if !ok {
      var clean := FreeUnsized(m, c, Pages(sz), l);
      return if clean then Failed else Panicked;
    }
    o := Done;
  }

  /** kvmcopy into the new kernel table of c, whose user table has grown to sz since x. */
  method MirrorNew(m: Memory, c: Space, sz: nat, ghost x: World, ghost img: Images, ghost l: Layout, ghost st: Stack) returns (ok: bool)
    requires m.Valid() && SpaceOk(x, c, l, st) && c.sz == 0 && sz <= PLIC && NewSlots(x, c, l, st) && Grown(x, m.Now(), c.user, 0, Pages(sz), img)
    modifies m
    ensures m.Valid() && (ok <==> |old(m.free)| >= MirrorNeed(l, st, Pages(sz))) && (!ok ==> Pages(sz) > 0)
    ensures Mirrors(old(m.Now()), m.Now(), c, sz, if ok then Pages(sz) else 0, l, st)
  {
    ghost var y, n := m.Now(), Pages(sz);
    AfterGrown(x, y, c, 0, n, img, l, st);
    assert |Lacking(y.use, c.kern, 0, n)| == MirrorNeed(l, st, n) by {
      NewLacking(x, c, l, st, n);
      GrownIsConfined(x, y, c.user, 0, n, img);
      LackingKept(x, y, c.kern, {c.user}, 0, n);
    }
    ok := MirrorRest(m, c, 0, sz, l, st);
    assert UseConfined(y, m.Now(), c.frame, {c.kern});
  }

  /** From y to z the kernel table of c, of sz bytes, came to mirror n pages. */
  ghost predicate Mirrors(y: World, z: World, c: Space, sz: nat, n: nat, l: Layout, st: Stack) {
    && LayoutOk(l, st) && c.frame in y.use && y.use[c.frame] == Other && Confined(y, z, {c.kern}) && z.data == y.data
    && c.frame in z.use && z.use[c.frame] == Other
    && UserTable(z, c.user, Pages(sz), c.frame, l.tramp) && IsRoot(z.use, c.kern) && NoFrames(z.use, c.kern)
    && Mirror(z.flat, c, n, l, st)
  }

  lemma ForkIsDone(w: World, x: World, y: World, z: World, s: Space, c: Space, l: Layout, st: Stack, st': Stack)
    requires SpaceOk(w, s, l, st) && SpaceOk(x, c, l, st') && c.sz == 0 && New(w, x, Owners(c)) && Owners(c) !! Owners(s) && s.sz <= PLIC
    requires forall i: nat :: i < Pages(s.sz) ==> Present(w, s.user, i) && Present(x, s.user, i)
    requires Grown(x, y, c.user, 0, Pages(s.sz), PageImages(x, s.user, Pages(s.sz)))
    requires Mirrors(y, z, c, s.sz, Pages(s.sz), l, st')
    ensures New(w, z, Owners(c)) && SpaceOk(z, c.(sz := s.sz), l, st') && Twin(w, z, s, c)
  {
    var img := PageImages(x, s.user, Pages(s.sz));
    assert Pages(c.sz) == 0;
    assert SpaceOk(z, c.(sz := s.sz), l, st') && Confined(x, z, {c.user, c.kern}) by {
      GrowEnds(x, y, z, c, s.sz, img, l, st', true);
    }
    ForkEnds(w, x, y, z, s, c, l, st);
  }

  /** freeproc of a process whose size is still 0 although its user table has n pages: freewalk
      panics exactly when there is one. */
  method FreeUnsized(m: Memory, c: Space, ghost n: nat, ghost l: Layout) returns (ok: bool)
    requires m.Valid() && UserTable(m.Now(), c.user, n, c.frame, l.tramp) && c.frame in m.use && m.use[c.frame] == Other
    modifies m
    ensures ok <==> n == 0
  {
    ghost var w := m.Now();
    FreePage(m, c.frame);
    ghost var v := m.Now();
    UserTableKept(w, v, c.user, n, c.frame, l.tramp, {c.frame});
    m.UvmunmapKeep(c.user, TRAMPOLINE, 1);
    ghost var x := m.Now();
    m.UvmunmapKeep(c.user, TRAPFRAME, 1);
    UserTableCut(v, x, m.Now(), c.user, n, c.frame, l.tramp);
    assert n > 0 ==> At(c.user, 0) in m.flat;
    ok := m.FreeTable(c.user, true);
  }

  lemma ForkEnds(w: World, x: World, y: World, z: World, s: Space, c: Space, l: Layout, st: Stack)
    requires SpaceOk(w, s, l, st) && New(w, x, Owners(c)) && Owners(c) !! Owners(s) && Confined(x, z, {c.user, c.kern})
    requires forall i: nat :: i < Pages(s.sz) ==> Present(w, s.user, i) && Present(x, s.user, i)
    requires Grown(x, y, c.user, 0, Pages(s.sz), PageImages(x, s.user, Pages(s.sz))) && Confined(y, z, {c.kern}) && z.data == y.data && c.user != c.kern
    ensures New(w, z, Owners(c)) && Twin(w, z, s, c)
  {
    ConfinedMore(x, z, {c.user, c.kern}, Owners(c));
    ConfinedTrans(w, x, z, Owners(c));
    forall i: nat | i < Pages(s.sz) ensures Holds(z, c.user, i, ImageOf(w, s.user, i)) {
      SameImage(w, x, s, i, Owners(c), l, st);
      var img := PageImages(x, s.user, Pages(s.sz));
      assert Holds(y, c.user, 0 + i, img[i]);
      assert Same(y.flat, z.flat, At(c.user, i)) && UseConfined(y, z, y.flat[At(c.user, i)].ppn, {c.kern});
    }
  }

  lemma SameImage(w: World, x: World, s: Space, i: nat, ts: set<nat>, l: Layout, st: Stack)
    requires SpaceOk(w, s, l, st) && Confined(w, x, ts) && ts !! Owners(s) && i < Pages(s.sz)
    requires Present(w, s.user, i) && Present(x, s.user, i)
    ensures ImageOf(w, s.user, i) == ImageOf(x, s.user, i)
  {
    var p := w.flat[At(s.user, i)].ppn;
    assert Same(w.flat, x.flat, At(s.user, i)) && DataConfined(w, x, p, ts);
    assert w.use[p] == Frame(s.user, i);
  }

  /** A failed uvmcopy leaves the child whole and new. */
  lemma ForkUndone(w: World, x: World, y: World, c: Space, l: Layout, st: Stack)
    requires New(w, x, Owners(c)) && SpaceOk(x, c, l, st)
    requires y.flat == x.flat && y.data == x.data && OnlyTables(x.use, x.free, y.use, y.free, c.user)
    ensures New(w, y, Owners(c)) && SpaceOk(y, c, l, st)
  {
    SpaceTables(x, y, c, l, st, c.user);
    TablesAreConfined(x, y, c.user);
    ConfinedMore(x, y, {c.user}, Owners(c));
    ConfinedTrans(w, x, y, Owners(c));
  }

  lemma NewIsApart(w: World, x: World, s: Space, ts: set<nat>, l: Layout, st: Stack)
    requires SpaceOk(w, s, l, st) && New(w, x, ts)
    ensures Owners(s) !! ts && SpaceOk(x, s, l, st)
  {
    assert !Mine(w.use[s.user], s.user, ts) && !Mine(w.use[s.kern], s.kern, ts) && !Mine(w.use[s.frame], s.frame, ts);
    SpaceKept(w, x, s, l, st, ts);
  }

  // ---------------------------------------------------------------------------------------
  // userinit
  // ---------------------------------------------------------------------------------------

  /** How userinit ends when `free` pages are free. */
  ghost function InitOf(free: nat, l: Layout, st: Stack): Outcome
    requires LayoutOk(l, st)
  {
    if free < SpacePages(l, st) + CopyNeed(1) then Panicked
    else if free < SpacePages(l, st) + CopyNeed(1) + MirrorNeed(l, st, 1) then Failed
    else Done
  }

  /** userinit's memory (proc.c:237-244) and uvminit (vm.c:269-279).  kvmcopy's result is not
      looked at, so that `Failed` goes on without a mirror; every other failure is a panic. */
  method InitSpace(m: Memory, page: seq<bv8>, l: Layout, st: Stack) returns (o: Outcome, s: Space)
    requires m.Valid() && LayoutOk(l, st) && |page| == PGSIZE
    modifies m
    ensures o == InitOf(|old(m.free)|, l, st)
    ensures !o.Panicked? ==> m.Valid() && New(old(m.Now()), m.Now(), Owners(s)) && s.sz == PGSIZE
    ensures o.Done? ==> SpaceOk(m.Now(), s, l, st) && Holds(m.Now(), s.user, 0, Image(page, URWX))
    ensures o.Failed? ==> TornSpace(m.Now(), s.(sz := 0), PGSIZE, l, st)
  {
    ghost var w := m.Now();
    o, s := AllocSpace(m, l, st);
    if !o.Done? {
      return Panicked, s;
    }
    ghost var x, img := m.Now(), [Image(page, URWX)];
    NotGrown(x, s.user, 0, img);
    PaidNone(x, s.user, 0);
    NewLacking(x, s, l, st, 1);
    assert At(s.user, 0) !in m.flat;
    var ok := GrowNext(m, s.user, 0, page, URWX, 0, 0, 1, x, img);
    if !ok {
      return Panicked, s;
    }
    PaidLeft(x, m.Now(), s.user, Lacking(x.use, s.user, 0, 1), 1);
    o := InitMirror(m, s, w, x, img, l, st);
    s := s.(sz := PGSIZE);
  }

  method InitMirror(m: Memory, s: Space, ghost w: World, ghost x: World, ghost img: Images, ghost l: Layout, ghost st: Stack) returns (o: Outcome)
    requires m.Valid() && SpaceOk(x, s, l, st) && s.sz == 0 && New(w, x, Owners(s)) && |img| == 1 && Grown(x, m.Now(), s.user, 0, 1, img) && NewSlots(x, s, l, st)
    modifies m
    ensures m.Valid() && New(w, m.Now(), Owners(s.(sz := PGSIZE))) && !o.Panicked?
    ensures o.Done? <==> |old(m.free)| >= MirrorNeed(l, st, 1)
    ensures o.Done? ==> SpaceOk(m.Now(), s.(sz := PGSIZE), l, st) && Holds(m.Now(), s.user, 0, img[0])
    ensures o.Failed? ==> TornSpace(m.Now(), s, PGSIZE, l, st)
  {
    ghost var y := m.Now();
    assert Pages(PGSIZE) == 1;
    var ok := MirrorNew(m, s, PGSIZE, x, img, l, st);
    InitIsDone(w, x, y, m.Now(), s, img, l, st, ok);
    o := if ok then Done else Failed;
  }

  lemma InitIsDone(w: World, x: World, y: World, z: World, s: Space, img: Images, l: Layout, st: Stack, ok: bool)
    requires SpaceOk(x, s, l, st) && s.sz == 0 && New(w, x, Owners(s)) && |img| == 1 && Grown(x, y, s.user, 0, 1, img)
    requires Mirrors(y, z, s, PGSIZE, if ok then Pages(PGSIZE) else 0, l, st)
    ensures New(w, z, Owners(s.(sz := PGSIZE)))
    ensures if ok then SpaceOk(z, s.(sz := PGSIZE), l, st) && Holds(z, s.user, 0, img[0]) else TornSpace(z, s, PGSIZE, l, st)
  {
    assert Pages(PGSIZE) == 1 && Pages(s.sz) == 0;
    assert Confined(x, z, {s.user, s.kern}) && (if ok then SpaceOk(z, s.(sz := PGSIZE), l, st) else TornSpace(z, s, PGSIZE, l, st)) by {
      GrowEnds(x, y, z, s, PGSIZE, img, l, st, ok);
    }
    InitEnds(w, x, y, z, s, img);
  }

  lemma InitEnds(w: World, x: World, y: World, z: World, s: Space, img: Images)
    requires New(w, x, Owners(s)) && Confined(x, z, {s.user, s.kern}) && |img| == 1 && s.user != s.kern
    requires Grown(x, y, s.user, 0, 1, img) && Confined(y, z, {s.kern}) && z.data == y.data
    ensures New(w, z, Owners(s)) && Owners(s) == Owners(s.(sz := PGSIZE)) && Holds(z, s.user, 0, img[0])
  {
    ConfinedMore(x, z, {s.user, s.kern}, Owners(s));
    ConfinedTrans(w, x, z, Owners(s));
    assert Holds(y, s.user, 0 + 0, img[0]);
    assert Same(y.flat, z.flat, At(s.user, 0)) && UseConfined(y, z, y.flat[At(s.user, 0)].ppn, {s.kern});
  }

  // ---------------------------------------------------------------------------------------
  // exec
  // ---------------------------------------------------------------------------------------

  /** A program header, and whether reading it and its segment from the file went well. */
  datatype Ph = Ph(read: bool, load: bool, vaddr: nat, memsz: nat, filesz: nat, loaded: bool)

  const U64: nat := 0x1_0000_0000_0000_0000

  /** Folds `Building`, as `PageTable.Key` does `Memory.Valid`. */
  predicate ImageKey(k: nat) {
    true
  }

  /** A new image in table t since w, of size sz: all pages are user pages, and no more pages
      were used than w had free. */
  ghost predicate Building(w: World, x: World, t: nat, sz: nat, frame: nat, tramp: nat) {
    forall i: nat :: ImageKey(i) ==> ImageFacts(w, x, t, sz, frame, tramp)
  }

  lemma BuildingMeans(w: World, x: World, t: nat, sz: nat, frame: nat, tramp: nat)
    requires Building(w, x, t, sz, frame, tramp)
    ensures ImageFacts(w, x, t, sz, frame, tramp)
  {
    assert ImageKey(0);
  }

  ghost predicate ImageFacts(w: World, x: World, t: nat, sz: nat, frame: nat, tramp: nat) {
    && New(w, x, {t}) && UserTable(x, t, Pages(sz), frame, tramp)
    && Pages(sz) + |x.free| <= |w.free| && |w.free| < TRAPPAGE - 2
    && (forall i: nat :: i < Pages(sz) ==> PlainPage(x.flat, t, i))
  }

  /** Page i of t is mapped with V, R, W, X and U. */
  predicate PlainPage(flat: Flat, t: nat, i: nat) {
    At(t, i) in flat && var e := flat[At(t, i)]; e.v && e.r && e.w && e.x && e.u
  }

  /** The n pages of an image: all but the last but one, the guard page, are user pages, and all can be
      read, written and executed by whoever may access them. */
  ghost predicate ImageFlags(flat: Flat, t: nat, n: nat) {
    n >= 2 && forall i: nat :: i < n ==>
      At(t, i) in flat && var e := flat[At(t, i)]; e.v && e.r && e.w && e.x && (e.u <==> i != n - 2)
  }

  lemma BuildingRoom(w: World, x: World, t: nat, sz: nat, newsz: nat, frame: nat, tramp: nat)
    requires Building(w, x, t, sz, frame, tramp) && sz <= newsz
    ensures IsRoot(x.use, t) && Pages(sz) <= Pages(newsz) && PgRoundUp(sz) <= MAXVA && Room(x, t, Pages(sz), Pages(newsz) - Pages(sz))
  {
    BuildingMeans(w, x, t, sz, frame, tramp);
    PagesGrow(sz, newsz);
  }

  /** Pages of t that uvmalloc added are user pages, and the earlier ones stay so. */
  lemma AllUser(x: World, y: World, t: nat, n: nat, k: nat)
    requires Grown(x, y, t, n, k, Zeroed(k))
    requires forall i: nat :: i < n ==> PlainPage(x.flat, t, i)
    ensures forall i: nat :: i < n + k ==> PlainPage(y.flat, t, i)
  {
    forall i: nat | i < n + k ensures PlainPage(y.flat, t, i) {
      if i < n {
        assert PlainPage(x.flat, t, i) && Same(x.flat, y.flat, At(t, i));
      } else {
        assert Holds(y, t, n + (i - n), Zeroed(k)[i - n]);
      }
    }
  }

  /** The pages of a user table with n user pages: root, frames and tables. */
  ghost function ImageNeed(n: nat): nat {
    1 + n + |TrapSlots() + PathSlots(0, n)|
  }

  /** A table being built has cost exactly that. */
  ghost predicate Costs(w: World, x: World, t: nat, n: nat) {
    Built(w, x, t, TrapSlots() + PathSlots(0, n), 1 + n)
  }

  lemma CostsMeans(w: World, x: World, t: nat, n: nat)
    requires Costs(w, x, t, n)
    ensures |x.free| + ImageNeed(n) == |w.free| && n + |x.free| < |w.free|
  {
    BuiltMeans(w, x, t, TrapSlots() + PathSlots(0, n), 1 + n);
  }

  lemma {:induction false} PathJoin(n: nat, k: nat)
    ensures PathSlots(0, n) + PathSlots(n, k) == PathSlots(0, n + k)
  {
    if k == 0 {
      PathStep(n, 0);
    } else {
      PathJoin(n, k - 1);
      PathNext(n, k - 1);
      PathNext(0, n + k - 1);
      Join3(PathSlots(0, n), PathSlots(n, k - 1), PathSlots(n + k - 1, 1));
    }
  }

  lemma Join3(a: set<Slot>, b: set<Slot>, c: set<Slot>)
    ensures a + (b + c) == a + b + c
  {
  }

  lemma ImageNeedGrows(n: nat, k: nat)
    requires n <= k
    ensures ImageNeed(n) <= ImageNeed(k) && ImageNeed(n) >= 3 + n
  {
    PathGrows(0, n, k);
    TrapSlotsAre();
    SubsetSize(TrapSlots(), TrapSlots() + PathSlots(0, n));
    SubsetSize(TrapSlots() + PathSlots(0, n), TrapSlots() + PathSlots(0, k));
  }

  /** Growing by k pages costs the difference. */
  lemma CostsMore(w: World, x: World, y: World, t: nat, n: nat, k: nat, n': nat)
    requires Costs(w, x, t, n) && Paid(x, y, t, Lacking(x.use, t, n, k), k) && n' == n + k
    ensures Costs(w, y, t, n') && n' + |y.free| <= |w.free|
  {
    PathJoin(n, k);
    assert TrapSlots() + PathSlots(0, n) + PathSlots(n, k) == TrapSlots() + PathSlots(0, n');
    BuiltMore(w, x, y, t, TrapSlots() + PathSlots(0, n), 1 + n, n, k, k, TrapSlots() + PathSlots(0, n'), 1 + n');
    CostsMeans(w, y, t, n');
  }

  lemma CostsTooMuch(w: World, x: World, t: nat, n: nat, k: nat)
    requires Costs(w, x, t, n) && |x.free| < GrowNeed(x.use, t, n, k)
    ensures |w.free| < ImageNeed(n + k)
  {
    BuiltTooFew(w, x, t, TrapSlots() + PathSlots(0, n), 1 + n, n, k, k);
    PathJoin(n, k);
    assert TrapSlots() + PathSlots(0, n) + PathSlots(n, k) == TrapSlots() + PathSlots(0, n + k);
  }

  lemma BuildingGrown(w: World, x: World, y: World, t: nat, sz: nat, newsz: nat, k: nat, frame: nat, tramp: nat)
    requires Building(w, x, t, sz, frame, tramp) && Pages(sz) + k == Pages(newsz) && Costs(w, x, t, Pages(sz))
    requires Grown(x, y, t, Pages(sz), k, Zeroed(k)) && Paid(x, y, t, Lacking(x.use, t, Pages(sz), k), k)
    ensures Building(w, y, t, newsz, frame, tramp) && Costs(w, y, t, Pages(newsz))
  {
    CostsMore(w, x, y, t, Pages(sz), k, Pages(newsz));
    BuildingUnfolds(w, x, y, t, sz, newsz, k, frame, tramp);
    BuildingFolds(w, y, t, newsz, frame, tramp);
  }

  lemma BuildingFolds(w: World, x: World, t: nat, sz: nat, frame: nat, tramp: nat)
    requires ImageFacts(w, x, t, sz, frame, tramp)
    ensures Building(w, x, t, sz, frame, tramp)
  {
  }

  lemma BuildingUnfolds(w: World, x: World, y: World, t: nat, sz: nat, newsz: nat, k: nat, frame: nat, tramp: nat)
    requires Building(w, x, t, sz, frame, tramp) && Pages(sz) + k == Pages(newsz) && Grown(x, y, t, Pages(sz), k, Zeroed(k))
    requires Pages(newsz) + |y.free| <= |w.free|
    ensures ImageFacts(w, y, t, newsz, frame, tramp)
  {
    BuildingMeans(w, x, t, sz, frame, tramp);
    assert UserTable(y, t, Pages(newsz), frame, tramp) by {
      UserGrown(x, y, t, Pages(sz), k, Zeroed(k), frame, tramp);
    }
    assert New(w, y, {t}) by {
      GrownIsConfined(x, y, t, Pages(sz), k, Zeroed(k));
      ConfinedTrans(w, x, y, {t});
    }
    assert forall i: nat :: i < Pages(newsz) ==> PlainPage(y.flat, t, i) by {
      AllUser(x, y, t, Pages(sz), k);
    }
  }

  lemma BuildingSame(w: World, x: World, y: World, t: nat, sz: nat, frame: nat, tramp: nat)
    requires Building(w, x, t, sz, frame, tramp)
    requires y.flat == x.flat && y.data == x.data && OnlyTables(x.use, x.free, y.use, y.free, t)
    ensures Building(w, y, t, sz, frame, tramp)
  {
    BuildingMeans(w, x, t, sz, frame, tramp);
    UserTables(x, y, t, Pages(sz), t, frame, tramp);
    TablesAreConfined(x, y, t);
    ConfinedTrans(w, x, y, {t});
    SubsetSize(y.free, x.free);
  }

  lemma BuildingMore(w: World, x: World, y: World, t: nat, sz: nat, newsz: nat, frame: nat, tramp: nat, ok: bool)
    requires Building(w, x, t, sz, frame, tramp) && Costs(w, x, t, Pages(sz)) && sz <= newsz && Pages(sz) <= Pages(newsz)
    requires var n := Pages(newsz) - Pages(sz); AllOrNothing(x, y, t, Pages(sz), n, Zeroed(n), ok)
    requires var n := Pages(newsz) - Pages(sz); if ok then Paid(x, y, t, Lacking(x.use, t, Pages(sz), n), n) else |x.free| < GrowNeed(x.use, t, Pages(sz), n)
    ensures Building(w, y, t, if ok then newsz else sz, frame, tramp)
    ensures if ok then Costs(w, y, t, Pages(newsz)) && |w.free| >= ImageNeed(Pages(newsz)) else |w.free| < ImageNeed(Pages(newsz))
  {
    if ok {
      BuildingGrown(w, x, y, t, sz, newsz, Pages(newsz) - Pages(sz), frame, tramp);
      CostsMeans(w, y, t, Pages(newsz));
    } else {
      CostsTooMuch(w, x, t, Pages(sz), Pages(newsz) - Pages(sz));
      BuildingSame(w, x, y, t, sz, frame, tramp);
    }
  }

  /** uvmalloc on a table being built: sz' is the size the table has now. */
  method BuildMore(m: Memory, t: nat, sz: nat, newsz: nat, ghost w: World, ghost frame: nat, ghost tramp: nat) returns (r: nat, ghost sz': nat)
    requires m.Valid() && Building(w, m.Now(), t, sz, frame, tramp) && Costs(w, m.Now(), t, Pages(sz))
    modifies m
    ensures m.Valid() && Building(w, m.Now(), t, sz', frame, tramp)
    ensures sz' == (if r == 0 then sz else r) && (r != 0 ==> r == (if newsz < sz then sz else newsz) && Costs(w, m.Now(), t, Pages(r)))
    ensures r == 0 <==> (sz == 0 && newsz == 0) || (newsz >= sz && |w.free| < ImageNeed(Pages(newsz)))
  {
    ghost var x := m.Now();
    if sz <= newsz {
      BuildingRoom(w, x, t, sz, newsz, frame, tramp);
    }
    BuildingRoom(w, x, t, sz, sz, frame, tramp);
    r := Uvmalloc(m, t, sz, newsz);
    sz' := if r == 0 then sz else r;
    if sz <= newsz {
      BuildingMore(w, x, m.Now(), t, sz, newsz, frame, tramp, r == newsz);
    }
  }

  /** loadseg (exec.c:142-163), page by page: every address is there, and is a user page. */
  method LoadSeg(m: Memory, t: nat, va: nat, sz: nat, good: bool, ghost size: nat, ghost w: World, ghost frame: nat, ghost tramp: nat) returns (ok: bool)
    requires m.Valid() && Building(w, m.Now(), t, size, frame, tramp) && va % PGSIZE == 0 && va + sz <= size
    modifies m
    ensures m.Valid() && m.Now() == old(m.Now()) && (ok <==> good || sz == 0)
  {
    var i := 0;
    BuildingMeans(w, m.Now(), t, size, frame, tramp);
    while i < sz
      invariant m.Valid() && m.Now() == old(m.Now()) && i % PGSIZE == 0 && (good || i == 0)
      decreases sz - i
    {
      SegmentPage(va, i, sz, size);
      assert Vpn(va + i) < Pages(size) < TRAPPAGE && PlainPage(m.flat, t, Vpn(va + i));
      var found, e := m.Lookup(t, va + i);
      assert found && e.v && e.u;
      if !good {
        return false;
      }
      i := i + PGSIZE;
    }
    ok := true;
  }

  lemma SegmentPage(va: nat, i: nat, sz: nat, size: nat)
    requires va + sz <= size && i < sz
    ensures Vpn(va + i) < Pages(size)
  {
  }

  /** The size of the image after one program header, or None when the header leads to `bad`
      whatever memory there is: unreadable, too long for its memory, past the end of the address
      space, not aligned, its segment unreadable, or still of size 0. */
  function PhSize(ph: Ph, sz: nat): Option<nat> {
    var end := ph.vaddr + ph.memsz;
    var sz1 := if end < sz then sz else end;
    if !ph.read then None
    else if !ph.load then Some(sz)
    else if ph.memsz < ph.filesz || end % U64 < ph.vaddr || sz1 == 0 || ph.vaddr % PGSIZE != 0 then None
    else if !ph.loaded && ph.filesz % 0x1_0000_0000 != 0 then None
    else Some(sz1)
  }

  /** The same after the first n of them. */
  function ImageSize(phs: seq<Ph>, n: nat): Option<nat>
    requires n <= |phs|
  {
    if n == 0 then Some(0)
    else
      var sz := ImageSize(phs, n - 1);
      if sz.None? then None else PhSize(phs[n - 1], sz.value)
  }

  lemma {:induction false} ImageSizeGrows(phs: seq<Ph>, n: nat, k: nat)
    requires n <= k <= |phs|
    ensures ImageSize(phs, k).Some? ==> ImageSize(phs, n).Some? && ImageSize(phs, n).value <= ImageSize(phs, k).value
  {
    if n < k {
      ImageSizeGrows(phs, n, k - 1);
    }
  }

  /** One program header (exec.c:43-58). */
  method LoadPh(m: Memory, t: nat, sz: nat, ph: Ph, ghost w: World, ghost frame: nat, ghost tramp: nat) returns (ok: bool, sz': nat)
    requires m.Valid() && Building(w, m.Now(), t, sz, frame, tramp) && Costs(w, m.Now(), t, Pages(sz)) && ph.vaddr < U64 && ph.memsz < U64
    modifies m
    ensures m.Valid() && Building(w, m.Now(), t, sz', frame, tramp)
    ensures ok <==> PhSize(ph, sz).Some? && |w.free| >= ImageNeed(Pages(PhSize(ph, sz).value))
    ensures ok ==> sz' == PhSize(ph, sz).value && Costs(w, m.Now(), t, Pages(sz'))
  {
    sz' := sz;
    CostsMeans(w, m.Now(), t, Pages(sz));
    if !ph.read {
      return false, sz';
    }
    if !ph.load {
      return true, sz';
    }
    if ph.memsz < ph.filesz || (ph.vaddr + ph.memsz) % U64 < ph.vaddr {
      return false, sz';
    }
    ghost var now;
    var sz1;
    sz1, now := BuildMore(m, t, sz, ph.vaddr + ph.memsz, w, frame, tramp);
    if sz1 == 0 {
      return false, sz';
    }
    sz' := sz1;
    if ph.vaddr % PGSIZE != 0 {
      return false, sz';
    }
    CostsMeans(w, m.Now(), t, Pages(sz'));
    ok := LoadSeg(m, t, ph.vaddr, ph.filesz % 0x1_0000_0000, ph.loaded, sz', w, frame, tramp);
  }

  /** The exit at `bad` before the commit: all that was built is freed. */
  method Scrap(m: Memory, t: nat, sz: nat, ghost w: World, ghost frame: nat, ghost tramp: nat)
    requires m.Valid() && New(w, m.Now(), {t}) && UserTable(m.Now(), t, Pages(sz), frame, tramp)
    modifies m
    ensures m.Valid() && m.Now() == w
  {
    ghost var x := m.Now();
    ValidIsTidy(m);
    FreeUserTable(m, t, sz, frame, tramp);
    ReleasedIsBack(w, x, m.Now(), {t});
  }

  lemma RoundedSize(sz: nat)
    ensures Pages(PgRoundUp(sz)) == Pages(sz) && Pages(PgRoundUp(sz) + 2 * PGSIZE) == Pages(sz) + 2
    ensures PgRoundUp(sz) == Pages(sz) * PGSIZE
  {
  }

  lemma UserCleared(x: World, y: World, t: nat, v: nat, n: nat, frame: nat, tramp: nat)
    requires UserTable(x, t, n, frame, tramp) && v < n && At(t, v) in x.flat && x.flat[At(t, v)].v
    requires y.use == x.use && y.flat == x.flat[At(t, v) := NoUser(x.flat[At(t, v)])]
    ensures UserTable(y, t, n, frame, tramp)
  {
    assert y.flat.Keys == x.flat.Keys;
    assert forall k: At :: k in x.flat ==> y.flat[k].ppn == x.flat[k].ppn;
  }

  lemma Cleared(w: World, x: World, y: World, t: nat, v: nat, n: nat, frame: nat, tramp: nat)
    requires New(w, x, {t}) && UserTable(x, t, n, frame, tramp) && v < n && At(t, v) in x.flat && x.flat[At(t, v)].v
    requires y.use == x.use && y.free == x.free && y.data == x.data && y.flat == Put(x.flat, t, v, NoUser(x.flat[At(t, v)]))
    ensures New(w, y, {t}) && UserTable(y, t, n, frame, tramp)
  {
    UserCleared(x, y, t, v, n, frame, tramp);
    TablesAreConfined(x, y, t);
    ConfinedTrans(w, x, y, {t});
  }

  lemma SameImageSize(w: World, x: World, t: nat, sz: nat, frame: nat, tramp: nat)
    requires Building(w, x, t, sz, frame, tramp)
    ensures Building(w, x, t, PgRoundUp(sz), frame, tramp)
  {
    BuildingMeans(w, x, t, sz, frame, tramp);
    RoundedSize(sz);
  }

  lemma GuardCleared(flat: Flat, flat': Flat, t: nat, v: nat)
    requires (forall i: nat :: i < v + 2 ==> PlainPage(flat, t, i)) && At(t, v) in flat && flat' == Put(flat, t, v, NoUser(flat[At(t, v)]))
    ensures ImageFlags(flat', t, v + 2)
  {
    forall i: nat | i < v + 2
      ensures At(t, i) in flat' && var e := flat'[At(t, i)]; e.v && e.r && e.w && e.x && (e.u <==> i != v + 2 - 2)
    {
      assert PlainPage(flat, t, i) && PlainPage(flat, t, v);
    }
  }

  /** The guard page and the stack (exec.c:69-76). */
  method AddStack(m: Memory, t: nat, sz0: nat, ghost w: World, ghost frame: nat, ghost tramp: nat) returns (ok: bool, sz: nat)
    requires m.Valid() && Building(w, m.Now(), t, sz0, frame, tramp) && Costs(w, m.Now(), t, Pages(sz0))
    modifies m
    ensures m.Valid() && New(w, m.Now(), {t}) && UserTable(m.Now(), t, Pages(sz), frame, tramp)
    ensures ok <==> |w.free| >= ImageNeed(Pages(sz0) + 2)
    ensures ok ==> sz == PgRoundUp(sz0) + 2 * PGSIZE && Pages(sz) == Pages(sz0) + 2 && |m.free| + ImageNeed(Pages(sz)) == |w.free|
    ensures ok ==> ImageFlags(m.flat, t, Pages(sz))
  {
    RoundedSize(sz0);
    sz := PgRoundUp(sz0);
    SameImageSize(w, m.Now(), t, sz0, frame, tramp);
    ghost var now;
    var sz1;
    sz1, now := BuildMore(m, t, sz, sz + 2 * PGSIZE, w, frame, tramp);
    BuildingMeans(w, m.Now(), t, now, frame, tramp);
    if sz1 == 0 {
      return false, sz;
    }
    sz := sz1;
    CostsMeans(w, m.Now(), t, Pages(sz));
    ghost var x, v := m.Now(), Pages(sz0);
    assert PlainPage(m.flat, t, v);
    Uvmclear(m, t, sz - 2 * PGSIZE, v);
    Cleared(w, x, m.Now(), t, v, Pages(sz), frame, tramp);
    GuardCleared(x.flat, m.flat, t, v);
    ok := true;
  }

  /** exec has an image to commit: the file is good, and there are pages for image and stack. */
  ghost predicate ImageOk(free: nat, magic: bool, phs: seq<Ph>, args: bool) {
    magic && args && ImageSize(phs, |phs|).Some? && free >= ImageNeed(ImagePages(phs))
  }

  /** The pages of the image: what the headers say, a guard page and the stack. */
  ghost function ImagePages(phs: seq<Ph>): nat {
    if ImageSize(phs, |phs|).Some? then Pages(ImageSize(phs, |phs|).value) + 2 else 0
  }

  /** exec up to the commit (exec.c:33-98): a new user table, or no change at all. */
  method ExecImage(m: Memory, magic: bool, phs: seq<Ph>, args: bool, frame: nat, tramp: nat) returns (ok: bool, t: nat, sz: nat)
    requires m.Valid() && frame > 0 && tramp > 0 && |m.free| < TRAPPAGE - 2
    requires forall i :: 0 <= i < |phs| ==> phs[i].vaddr < U64 && phs[i].memsz < U64
    modifies m
    ensures m.Valid() && (ok <==> ImageOk(|old(m.free)|, magic, phs, args))
    ensures !ok ==> m.Now() == old(m.Now())
    ensures ok ==> New(old(m.Now()), m.Now(), {t}) && UserTable(m.Now(), t, Pages(sz), frame, tramp) && t !in old(m.use)
    ensures ok ==> sz == ImagePages(phs) * PGSIZE && Pages(sz) == ImagePages(phs) && |m.free| + ImageNeed(Pages(sz)) == |old(m.free)|
    ensures ok ==> ImageFlags(m.flat, t, Pages(sz))
  {
    ghost var w := m.Now();
    t, sz := 0, 0;
    if !magic {
      return false, t, sz;
    }
    t := ProcPagetable(m, frame, tramp);
    if t == 0 {
      ImageNeedGrows(ImagePages(phs), ImagePages(phs));
      return false, t, sz;
    }
    ImageStarts(w, m.Now(), t, frame, tramp);
    var i := 0;
    while i < |phs|
      invariant m.Valid() && 0 <= i <= |phs| && Building(w, m.Now(), t, sz, frame, tramp) && Costs(w, m.Now(), t, Pages(sz))
      invariant ImageSize(phs, i) == Some(sz)
    {
      ok, sz := LoadPh(m, t, sz, phs[i], w, frame, tramp);
      if !ok {
        ImageFails(w, phs, i);
        BuildingMeans(w, m.Now(), t, sz, frame, tramp);
        Scrap(m, t, sz, w, frame, tramp);
        return;
      }
      i := i + 1;
    }
    ok, sz := AddStack(m, t, sz, w, frame, tramp);
    if !ok || !args {
      Scrap(m, t, sz, w, frame, tramp);
      ok := false;
    }
  }

  lemma ImageStarts(w: World, x: World, t: nat, frame: nat, tramp: nat)
    requires New(w, x, {t}) && UserTable(x, t, 0, frame, tramp) && Built(w, x, t, TrapSlots(), 1) && |w.free| < TRAPPAGE - 2
    ensures Pages(0) == 0 && Building(w, x, t, 0, frame, tramp) && Costs(w, x, t, 0)
  {
    assert |x.free| <= |w.free| by {
      BuiltMeans(w, x, t, TrapSlots(), 1);
    }
    assert TrapSlots() + PathSlots(0, 0) == TrapSlots() by {
      PathStep(0, 0);
    }
  }

  /** A header that fails spoils the image. */
  lemma ImageFails(w: World, phs: seq<Ph>, i: nat)
    requires i < |phs| && ImageSize(phs, i).Some?
    requires var sz := PhSize(phs[i], ImageSize(phs, i).value); sz.None? || |w.free| < ImageNeed(Pages(sz.value))
    ensures forall magic: bool, args: bool :: !ImageOk(|w.free|, magic, phs, args)
  {
    ImageSizeGrows(phs, i + 1, |phs|);
    if ImageSize(phs, |phs|).Some? {
      var sz := ImageSize(phs, i + 1).value;
      PagesGrow(sz, ImageSize(phs, |phs|).value);
      ImageNeedGrows(Pages(sz), ImagePages(phs));
    }
  }

  /** How exec ended: with the new image, with the old one, or with a freed table as p->pagetable. */
  datatype ExecEnd = Committed | Kept | Dangling

  lemma ReleasedIsConfined(x: World, y: World, ts: set<nat>)
    requires Released(x, y, ts)
    ensures Confined(x, y, ts) && Fresh(y, ts)
  {
    forall p: nat ensures UseConfined(x, y, p, ts) && DataConfined(x, y, p, ts) {
    }
  }

  /** kvmdealloc to 0 empties the mirror. */
  lemma Emptied(x: World, y: World, s: Space, t: nat, l: Layout, st: Stack)
    requires SpaceOk(x, s, l, st) && y.use == x.use && y.free == x.free && y.data == x.data && t != s.kern
    requires if s.sz > 0 then Unmapped(x.flat, y.flat, s.kern, 0, Pages(s.sz)) else y.flat == x.flat
    ensures Mirror(y.flat, Space(t, s.kern, 0, s.frame), 0, l, st) && Confined(x, y, {s.kern})
  {
    forall a: At | a.t != s.kern ensures Same(x.flat, y.flat, a) {
    }
    TablesAreConfined(x, y, s.kern);
    var s' := Space(t, s.kern, 0, s.frame);
    forall v: nat ensures MirrorAt(y.flat, s', 0, l, st, v) {
      assert MirrorAt(x.flat, s, Pages(s.sz), l, st, v);
      assert At(s.kern, v).v == v;
      if v < FIRST {
        KernelIsHigh(l, st, 7, v);
      }
    }
  }

  /** The commit of exec (exec.c:112-120), with new table t of size sz made since w. */
  method Commit(m: Memory, s: Space, t: nat, sz: nat, ghost w: World, ghost l: Layout, ghost st: Stack) returns (ok: bool)
    requires m.Valid() && SpaceOk(w, s, l, st) && SpaceOk(m.Now(), s, l, st)
    requires New(w, m.Now(), {t}) && t !in Owners(s) && UserTable(m.Now(), t, Pages(sz), s.frame, l.tramp)
    modifies m
    ensures m.Valid() && Confined(w, m.Now(), {s.user, s.kern, t})
    ensures ok <==> sz <= PLIC && |old(m.free)| >= |Lacking(w.use, s.kern, 0, Pages(sz))|
    ensures ok ==> SpaceOk(m.Now(), s.(user := t, sz := sz), l, st) && Fresh(m.Now(), {s.user})
    ensures ok && ImageFlags(old(m.flat), t, Pages(sz)) ==> ImageFlags(m.flat, t, Pages(sz))
    ensures !ok ==> Fresh(m.Now(), {t}) && Confined(w, m.Now(), {s.kern, t})
    ensures !ok ==> UserTable(m.Now(), s.user, Pages(s.sz), s.frame, l.tramp) && Mirror(m.flat, s, 0, l, st)
  {
    ghost var x := m.Now();
    assert Lacking(m.use, s.kern, 0, Pages(sz)) == Lacking(w.use, s.kern, 0, Pages(sz)) by {
      LackingKept(w, x, s.kern, {t}, 0, Pages(sz));
    }
    ok := Remirror(m, s, t, sz, l, st);
    ghost var z := m.Now();
    if ok {
      FreeUserTable(m, s.user, s.sz, s.frame, l.tramp);
      CommitEnds(w, x, z, m.Now(), s, t, sz, l, st);
    } else {
      FreeUserTable(m, t, sz, s.frame, l.tramp);
      CommitFails(w, x, z, m.Now(), s, t, l, st);
    }
  }

  /** The kernel table's user half emptied, and made to mirror t (exec.c:114-115). */
  method Remirror(m: Memory, s: Space, t: nat, sz: nat, ghost l: Layout, ghost st: Stack) returns (ok: bool)
    requires m.Valid() && SpaceOk(m.Now(), s, l, st) && t !in Owners(s) && UserTable(m.Now(), t, Pages(sz), s.frame, l.tramp)
    modifies m
    ensures m.Valid() && Confined(old(m.Now()), m.Now(), {s.kern})
    ensures ok <==> sz <= PLIC && |old(m.free)| >= |Lacking(old(m.use), s.kern, 0, Pages(sz))|
    ensures Mirror(m.flat, Space(t, s.kern, 0, s.frame), if ok then Pages(sz) else 0, l, st) && IsRoot(m.use, s.kern) && NoFrames(m.use, s.kern)
    ensures UserTable(m.Now(), t, Pages(sz), s.frame, l.tramp) && UserTable(m.Now(), s.user, Pages(s.sz), s.frame, l.tramp)
  {
    ghost var x := m.Now();
    forall i: nat | i < Pages(s.sz) ensures At(s.kern, i) in m.flat {
      assert MirrorAt(m.flat, s, Pages(s.sz), l, st, i);
    }
    var _ := Kvmdealloc(m, s.kern, s.sz, 0);
    ghost var y := m.Now();
    Emptied(x, y, s, t, l, st);
    UserTableKept(x, y, t, Pages(sz), s.frame, l.tramp, {s.kern});
    ok := MirrorRest(m, Space(t, s.kern, 0, s.frame), 0, sz, l, st);
    assert Confined(x, m.Now(), {s.kern}) by {
      ConfinedTrans(x, y, m.Now(), {s.kern});
    }
    UserTableKept(x, m.Now(), s.user, Pages(s.sz), s.frame, l.tramp, {s.kern});
  }

  lemma CommitEnds(w: World, x: World, z: World, z': World, s: Space, t: nat, sz: nat, l: Layout, st: Stack)
    requires SpaceOk(x, s, l, st) && New(w, x, {t}) && t !in Owners(s) && sz <= PLIC
    requires Confined(x, z, {s.kern}) && Mirror(z.flat, Space(t, s.kern, 0, s.frame), Pages(sz), l, st)
    requires UserTable(z, t, Pages(sz), s.frame, l.tramp) && IsRoot(z.use, s.kern) && NoFrames(z.use, s.kern)
    requires Released(z, z', {s.user})
    ensures Confined(w, z', {s.user, s.kern, t})
    ensures SpaceOk(z', s.(user := t, sz := sz), l, st) && Fresh(z', {s.user})
    ensures ImageFlags(x.flat, t, Pages(sz)) ==> ImageFlags(z'.flat, t, Pages(sz))
  {
    var s' := s.(user := t, sz := sz);
    if ImageFlags(x.flat, t, Pages(sz)) {
      FlagsKept(x, z, z', s, t, Pages(sz));
    }
    assert UseConfined(x, z, s.frame, {s.kern});
    MirrorResized(z.flat, Space(t, s.kern, 0, s.frame), sz, Pages(sz), l, st);
    assert Space(t, s.kern, 0, s.frame).(sz := sz) == s';
    ReleasedIsConfined(z, z', {s.user});
    SpaceKept(z, z', s', l, st, {s.user});
    ConfinedMore(w, x, {t}, {s.user, s.kern, t});
    ConfinedMore(x, z, {s.kern}, {s.user, s.kern, t});
    ConfinedMore(z, z', {s.user}, {s.user, s.kern, t});
    ConfinedTrans(w, x, z, {s.user, s.kern, t});
    ConfinedTrans(w, z, z', {s.user, s.kern, t});
  }

  lemma FlagsKept(x: World, z: World, z': World, s: Space, t: nat, n: nat)
    requires Confined(x, z, {s.kern}) && Released(z, z', {s.user}) && t != s.kern && t != s.user && ImageFlags(x.flat, t, n)
    ensures ImageFlags(z'.flat, t, n)
  {
    forall i: nat | i < n ensures Same(x.flat, z'.flat, At(t, i)) {
      assert Same(x.flat, z.flat, At(t, i));
    }
    forall i: nat | i < n
      ensures At(t, i) in z'.flat && var e := z'.flat[At(t, i)]; e.v && e.r && e.w && e.x && (e.u <==> i != n - 2)
    {
      assert Same(x.flat, z'.flat, At(t, i)) && At(t, i) in x.flat;
    }
  }

  lemma CommitFails(w: World, x: World, z: World, z': World, s: Space, t: nat, l: Layout, st: Stack)
    requires SpaceOk(x, s, l, st) && New(w, x, {t}) && t !in Owners(s)
    requires Confined(x, z, {s.kern}) && Mirror(z.flat, Space(t, s.kern, 0, s.frame), 0, l, st)
    requires UserTable(z, s.user, Pages(s.sz), s.frame, l.tramp) && Released(z, z', {t})
    ensures Fresh(z', {t}) && Confined(w, z', {s.kern, t}) && Confined(w, z', {s.user, s.kern, t})
    ensures UserTable(z', s.user, Pages(s.sz), s.frame, l.tramp) && Mirror(z'.flat, s, 0, l, st)
  {
    ReleasedIsConfined(z, z', {t});
    ConfinedMore(w, x, {t}, {s.kern, t});
    ConfinedMore(x, z, {s.kern}, {s.kern, t});
    ConfinedMore(z, z', {t}, {s.kern, t});
    ConfinedTrans(w, x, z, {s.kern, t});
    ConfinedTrans(w, z, z', {s.kern, t});
    ConfinedMore(w, z', {s.kern, t}, {s.user, s.kern, t});
    UserTableKept(z, z', s.user, Pages(s.sz), s.frame, l.tramp, {t});
    forall v: nat ensures MirrorAt(z'.flat, s, 0, l, st, v) {
      assert MirrorAt(z.flat, Space(t, s.kern, 0, s.frame), 0, l, st, v);
      assert Same(z.flat, z'.flat, At(s.kern, v));
    }
  }

  /** How exec ends, from the state before: the image is kept when the new one is no good or there
      are no pages for it; the commit fails when the new one is too large for the kernel table, or
      there are no pages left for the tables the kernel table lacks. */
  ghost function ExecOf(w: World, s: Space, magic: bool, phs: seq<Ph>, args: bool): ExecEnd {
    var n := ImagePages(phs);
    if !ImageOk(|w.free|, magic, phs, args) then Kept
    else if n * PGSIZE > PLIC || |w.free| < ImageNeed(n) + |Lacking(w.use, s.kern, 0, n)| then Dangling
    else Committed
  }

  /** exec's memory (exec.c:12-135). */
  method ExecSpace(m: Memory, s: Space, magic: bool, phs: seq<Ph>, args: bool, l: Layout, ghost st: Stack) returns (e: ExecEnd, s': Space)
    requires m.Valid() && SpaceOk(m.Now(), s, l, st) && |m.free| < TRAPPAGE - 2
    requires forall i :: 0 <= i < |phs| ==> phs[i].vaddr < U64 && phs[i].memsz < U64
    modifies m
    ensures m.Valid() && s'.kern == s.kern && s'.frame == s.frame
    ensures e == ExecOf(old(m.Now()), s, magic, phs, args)
    ensures e.Committed? ==> s'.sz == ImagePages(phs) * PGSIZE && ImageFlags(m.flat, s'.user, ImagePages(phs))
    ensures e.Kept? ==> s' == s && m.Now() == old(m.Now())
    ensures !e.Kept? ==> Fresh(old(m.Now()), {s'.user}) && Confined(old(m.Now()), m.Now(), {s.user, s.kern, s'.user})
    ensures e.Committed? ==> SpaceOk(m.Now(), s', l, st) && Fresh(m.Now(), {s.user})
    ensures e.Dangling? ==> Fresh(m.Now(), {s'.user}) && Confined(old(m.Now()), m.Now(), {s.kern, s'.user}) && s'.sz == s.sz
    ensures e.Dangling? ==> UserTable(m.Now(), s.user, Pages(s.sz), s.frame, l.tramp) && Mirror(m.flat, s, 0, l, st)
  {
    ghost var w := m.Now();
    var ok, t, sz := ExecImage(m, magic, phs, args, s.frame, l.tramp);
    if !ok {
      return Kept, s;
    }
    NewIsApart(w, m.Now(), s, {t}, l, st);
    ok := Commit(m, s, t, sz, w, l, st);
    if ok {
      return Committed, s.(user := t, sz := sz);
    }
    return Dangling, s.(user := t);
  }
}

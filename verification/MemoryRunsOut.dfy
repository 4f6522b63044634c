/**
 Runs into each exit that leaves a process torn or the kernel in a panic: for every layout, and
 every set of free pages of a certain size, the calls below end there.
 */
module MemoryRunsOut {
  import opened Riscv
  import opened PageTable
  import opened UserMemory
  import opened ProcMemory
  import opened ForkExec

  /** Every place of a range is on the way to one of its pages. */
  lemma {:induction false} PathSlotHasPage(v: nat, n: nat, s: Slot) returns (w: nat)
    requires s in PathSlots(v, n)
    ensures v <= w < v + n && s in PageSlots(w)
  {
    PathStep(v, 0);
    if n > 0 {
      PathStep(v, n - 1);
      if s in PathSlots(v, n - 1) {
        w := PathSlotHasPage(v, n - 1, s);
      } else {
        w := v + n - 1;
      }
    }
  }

  /** The kernel mappings do not need the lowest table of page 0. */
  lemma {:induction false} KernelLacksFirst(l: Layout, st: Stack, n: nat)
    requires LayoutOk(l, st) && n <= 7
    ensures Lower(0, 0) !in RegionSlots(l, st, n)
  {
    if n > 0 {
      KernelLacksFirst(l, st, n - 1);
      var r := RegionOf(l, st, n - 1);
      if Lower(0, 0) in PathSlots(r.v, r.n) {
        var w := PathSlotHasPage(r.v, r.n, Lower(0, 0));
        HighPage(w);
      }
    }
  }

  lemma HighPage(w: nat)
    requires w >= FIRST
    ensures Lower(0, 0) !in PageSlots(w)
  {
    if w < NVPN {
      var q := PathOf(w);
      assert VpnOf(q) == w;
    }
  }

  /** What mirroring the first pages of a process takes. */
  lemma FirstPages(l: Layout, st: Stack, n: nat)
    requires LayoutOk(l, st) && n > 0
    ensures MirrorNeed(l, st, n) > 0 && CopyNeed(1) == 3
  {
    FirstSlots();
    assert MirrorNeed(l, st, n) > 0 by {
      KernelLacksFirst(l, st, 7);
      PathGrows(0, 1, n);
      assert Lower(0, 0) in PathSlots(0, n) - RegionSlots(l, st, 7);
    }
    assert |PathSlots(0, 1) - TrapSlots()| == 2 by {
      TrapSlotsAre();
      assert PathSlots(0, 1) - TrapSlots() == {Upper(0), Lower(0, 0)};
    }
  }

  lemma FirstSlots()
    ensures PathSlots(0, 1) == {Upper(0), Lower(0, 0)}
  {
    PageSlotsAt(0, Path(0, 0, 0));
  }

  lemma OnePage()
    ensures Pages(0) == 0 && Pages(1) == 1
  {
  }

  /** growproc(1) of a new process when only the user half can be paid. */
  method GrowIsTorn(l: Layout, st: Stack, free: set<nat>) returns (m: Memory, s: Space)
    requires LayoutOk(l, st) && 0 !in free && |free| == SpacePages(l, st) + 3
    ensures fresh(m) && m.Valid() && TornSpace(m.Now(), s, 1, l, st) && !SpaceOk(m.Now(), s, l, st)
  {
    m := new Memory(free);
    var o;
    o, s := AllocSpace(m, l, st);
    FirstPages(l, st, 1);
    NewLacking(m.Now(), s, l, st, 1);
    OnePage();
    var g, s' := GrowProc(m, s, 1, l, st);
    TornIsBroken(m.Now(), s, 1, l, st);
  }

  /** fork of a process of one page when the child's user half can be paid and no more. */
  method ForkPanics(l: Layout, st: Stack, st': Stack, free: set<nat>) returns (o: Outcome)
    requires LayoutOk(l, st) && LayoutOk(l, st') && 0 !in free
    requires |free| == SpacePages(l, st) + 3 + MirrorNeed(l, st, 1) + SpacePages(l, st') + 3
    ensures o == Panicked
  {
    var m := new Memory(free);
    var s, c, g;
    o, s := AllocSpace(m, l, st);
    FirstPages(l, st, 1);
    FirstPages(l, st', 1);
    NewLacking(m.Now(), s, l, st, 1);
    OnePage();
    ghost var x := m.Now();
    g, s := GrowProc(m, s, 1, l, st);
    assert |m.free| == SpacePages(l, st') + 3;
    o, c := ForkSpace(m, s, l, st, st');
  }

  /** exec of a program without segments when the new image can be paid and no more. */
  method ExecDangles(l: Layout, st: Stack, free: set<nat>) returns (m: Memory, s: Space, e: ExecEnd)
    requires LayoutOk(l, st) && 0 !in free && |free| == SpacePages(l, st) + ImageNeed(2) && |free| < TRAPPAGE - 2
    ensures e == Dangling && !IsRoot(m.use, s.user)
  {
    m := new Memory(free);
    var o;
    o, s := AllocSpace(m, l, st);
    FirstPages(l, st, 2);
    NewLacking(m.Now(), s, l, st, 2);
    OnePage();
    assert ImagePages([]) == 2;
    e, s := ExecSpace(m, s, true, [], true, l, st);
    assert s.user in m.use ==> !Mine(m.use[s.user], s.user, {s.user});
  }

  /** userinit when the user page can be paid and no more: it goes on without a mirror. */
  method InitIsTorn(page: seq<bv8>, l: Layout, st: Stack, free: set<nat>) returns (m: Memory, s: Space)
    requires LayoutOk(l, st) && |page| == PGSIZE && 0 !in free && |free| == SpacePages(l, st) + 3
    ensures fresh(m) && m.Valid() && TornSpace(m.Now(), s.(sz := 0), PGSIZE, l, st)
  {
    m := new Memory(free);
    FirstPages(l, st, 1);
    var o;
    o, s := InitSpace(m, page, l, st);
  }
}

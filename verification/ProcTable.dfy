/**
 All processes together: the memory of every whole process stays whole whatever the other
 processes do.
 */
module ProcTable {
  import opened Riscv
  import opened PageTable
  import opened UserMemory
  import opened ProcMemory
  import opened ForkExec
  import opened UserCopy

  type Table = map<nat, Space>

  /** Every process in `good` has its memory, and no two share a table or a trapframe. */
  ghost predicate AllOk(w: World, procs: Table, good: set<nat>, l: Layout, stacks: seq<Stack>) {
    && (forall i: nat :: i in good ==> i in procs && i < |stacks| && SpaceOk(w, procs[i], l, stacks[i]))
    && (forall i: nat, j: nat :: i in good && j in good && i in procs && j in procs && i != j ==> Owners(procs[i]) !! Owners(procs[j]))
  }

  /** What one process does is confined to it, so the others are kept. */
  lemma OthersKept(w: World, x: World, procs: Table, good: set<nat>, l: Layout, stacks: seq<Stack>, i: nat, ts: set<nat>)
    requires AllOk(w, procs, good, l, stacks) && i in good && Confined(w, x, ts)
    requires forall j: nat :: j in good && j != i ==> Owners(procs[j]) !! ts
    ensures AllOk(x, procs, good - {i}, l, stacks)
  {
    forall j: nat | j in good - {i} ensures SpaceOk(x, procs[j], l, stacks[j]) {
      SpaceKept(w, x, procs[j], l, stacks[j], ts);
    }
  }

  /** New things leave all processes as they are, and apart. */
  lemma AllKept(w: World, x: World, procs: Table, good: set<nat>, l: Layout, stacks: seq<Stack>, ts: set<nat>)
    requires AllOk(w, procs, good, l, stacks) && New(w, x, ts)
    ensures AllOk(x, procs, good, l, stacks) && forall j: nat :: j in good ==> Owners(procs[j]) !! ts
  {
    forall j: nat | j in good ensures SpaceOk(x, procs[j], l, stacks[j]) && Owners(procs[j]) !! ts {
      NewIsApart(w, x, procs[j], ts, l, stacks[j]);
    }
  }

  lemma OneMore(x: World, procs: Table, good: set<nat>, l: Layout, stacks: seq<Stack>, i: nat, s: Space)
    requires AllOk(x, procs, good, l, stacks) && i !in good && i < |stacks| && SpaceOk(x, s, l, stacks[i])
    requires forall j: nat :: j in good ==> Owners(procs[j]) !! Owners(s)
    ensures AllOk(x, procs[i := s], good + {i}, l, stacks)
  {
  }

  /** A new process, whole or not, beside the others. */
  lemma NewProcess(w: World, x: World, procs: Table, good: set<nat>, good': set<nat>, l: Layout, stacks: seq<Stack>, j: nat, s: Space)
    requires AllOk(w, procs, good, l, stacks) && New(w, x, Owners(s)) && j !in good && j < |stacks|
    requires good' == good || (good' == good + {j} && SpaceOk(x, s, l, stacks[j]))
    ensures AllOk(x, procs[j := s], good', l, stacks)
  {
    AllKept(w, x, procs, good, l, stacks, Owners(s));
    if good' != good {
      OneMore(x, procs, good, l, stacks, j, s);
    }
  }

  /** Two processes never have a page of memory in common. */
  lemma NoSharing(w: World, procs: Table, good: set<nat>, l: Layout, stacks: seq<Stack>, i: nat, j: nat, a: nat, b: nat)
    requires AllOk(w, procs, good, l, stacks) && i in good && j in good && i != j
    requires a < Pages(procs[i].sz) && b < Pages(procs[j].sz)
    ensures At(procs[i].user, a) in w.flat && At(procs[j].user, b) in w.flat
    ensures w.flat[At(procs[i].user, a)].ppn != w.flat[At(procs[j].user, b)].ppn
  {
    assert SpaceOk(w, procs[i], l, stacks[i]) && SpaceOk(w, procs[j], l, stacks[j]);
  }

  /** So copies to and from any whole process see a plain memory of bytes. */
  lemma CopiesSeePlainMemory(m: Memory, procs: Table, good: set<nat>, l: Layout, stacks: seq<Stack>, i: nat)
    requires m.Valid() && AllOk(m.Now(), procs, good, l, stacks) && i in good
    ensures UserStored(m.Now(), procs[i].user) && NoAlias(m.Now(), procs[i].user)
    ensures forall a: nat :: a < procs[i].sz && UserPage(m.Now(), procs[i].user, Vpn(a)) ==> UByte(m.Now(), procs[i].user, a).Some?
  {
    var w, s := m.Now(), procs[i];
    assert SpaceOk(w, s, l, stacks[i]);
    m.Open();
    forall v: nat | UserPage(w, s.user, v) ensures v < Pages(s.sz) {
      assert At(s.user, v).t == s.user;
    }
  }

  class Kernel {
    const m: Memory
    const l: Layout
    const stacks: seq<Stack>
    var procs: Table
    /** Processes that no call has left torn (see `Growth` and `ExecEnd`). */
    ghost var good: set<nat>

    ghost predicate Valid()
      reads this, m
    {
      m.Valid() && AllOk(m.Now(), procs, good, l, stacks) && good <= procs.Keys
    }

    /** After procinit: no process yet. */
    constructor (m: Memory, l: Layout, stacks: seq<Stack>)
      requires m.Valid()
      ensures Valid() && this.m == m && this.l == l && this.stacks == stacks && procs == map[] && good == {}
    {
      this.m, this.l, this.stacks, procs, good := m, l, stacks, map[], {};
    }

    /** growproc by process i. */
    method Growproc(i: nat, n: int) returns (g: Growth)
      requires Valid() && i in good && -0x8000_0000 <= n < 0x8000_0000
      modifies this, m
      ensures Valid() && procs.Keys == old(procs).Keys && forall j: nat :: j in procs && j != i ==> procs[j] == old(procs)[j]
      ensures g == GrowthOf(old(m.Now()), old(procs)[i], n)
      ensures good == if g.Torn? then old(good) - {i} else old(good)
      ensures var s, s' := old(procs)[i], procs[i];
              && s' == s.(sz := if g.Grew? && s.sz + n >= 0 then s.sz + n else s.sz)
              && (g.Grew? && n > 0 ==> NewPagesAreZero(m.Now(), s.user, s.sz, s'.sz))
      ensures g.Refused? ==> n > 0 && m.flat == old(m.flat) && m.data == old(m.data)
      ensures g.Torn? ==> n > 0 && TornSpace(m.Now(), procs[i], procs[i].sz + n, l, stacks[i])
    {
      ghost var w := m.Now();
      assert SpaceOk(w, procs[i], l, stacks[i]);
      var s;
      g, s := GrowProc(m, procs[i], n, l, stacks[i]);
      OthersKept(w, m.Now(), procs, good, l, stacks, i, {procs[i].user, procs[i].kern});
      ghost var others := good - {i};
      if !g.Torn? {
        OneMore(m.Now(), procs, others, l, stacks, i, s);
        assert others + {i} == good;
      } else {
        good := others;
      }
      procs := procs[i := s];
    }

    /** fork by process i, into slot j. */
    method Fork(i: nat, j: nat) returns (o: Outcome)
      requires Valid() && i in good && j !in procs && j < |stacks| && LayoutOk(l, stacks[j])
      modifies this, m
      ensures o == ForkOf(|old(m.free)|, Pages(old(procs)[i].sz), l, stacks[j])
      ensures o.Failed? ==> Valid() && procs == old(procs) && good == old(good) && m.Now() == old(m.Now())
      ensures o.Done? ==> Valid() && good == old(good) + {j} && procs.Keys == old(procs).Keys + {j}
      ensures o.Done? ==> procs[j].sz == procs[i].sz && Twin(old(m.Now()), m.Now(), procs[i], procs[j])
      ensures o.Done? ==> forall k: nat :: k in old(procs) ==> procs[k] == old(procs)[k]
    {
      ghost var w := m.Now();
      assert SpaceOk(w, procs[i], l, stacks[i]);
      var c;
      o, c := ForkSpace(m, procs[i], l, stacks[i], stacks[j]);
      if o.Done? {
        NewProcess(w, m.Now(), procs, good, good + {j}, l, stacks, j, c);
        procs, good := procs[j := c], good + {j};
      }
    }

    /** exec by process i. */
    method Exec(i: nat, magic: bool, phs: seq<Ph>, args: bool) returns (e: ExecEnd)
      requires Valid() && i in good && |m.free| < TRAPPAGE - 2
      requires forall k :: 0 <= k < |phs| ==> phs[k].vaddr < U64 && phs[k].memsz < U64
      modifies this, m
      ensures Valid() && procs.Keys == old(procs).Keys && forall j: nat :: j in procs && j != i ==> procs[j] == old(procs)[j]
      ensures e == ExecOf(old(m.Now()), old(procs)[i], magic, phs, args)
      ensures good == if e.Dangling? then old(good) - {i} else old(good)
      ensures e.Kept? ==> procs == old(procs) && m.Now() == old(m.Now())
      ensures e.Committed? ==> procs[i].sz == ImagePages(phs) * PGSIZE && ImagePages(phs) >= 2
      ensures e.Committed? ==> forall v: nat :: v < ImagePages(phs) ==> (UserPage(m.Now(), procs[i].user, v) <==> v != ImagePages(phs) - 2)
      ensures e.Committed? ==> Fresh(old(m.Now()), {procs[i].user}) && Fresh(m.Now(), {old(procs)[i].user})
      ensures procs[i].kern == old(procs)[i].kern && procs[i].frame == old(procs)[i].frame
    {
      ghost var w := m.Now();
      assert SpaceOk(w, procs[i], l, stacks[i]);
      var s;
      e, s := ExecSpace(m, procs[i], magic, phs, args, l, stacks[i]);
      if e.Kept? {
        return;
      }
      ghost var others := good - {i};
      FreshIsApart(w, procs, good, l, stacks, s.user);
      OthersKept(w, m.Now(), procs, good, l, stacks, i, {procs[i].user, procs[i].kern, s.user});
      if e.Committed? {
        StackIsGuarded(m.Now(), s.user, ImagePages(phs));
        OneMore(m.Now(), procs, others, l, stacks, i, s);
        assert others + {i} == good;
      } else {
        good := others;
      }
      procs := procs[i := s];
    }

    /** freeproc of process i, from wait. */
    method Freeproc(i: nat)
      requires Valid() && i in good
      modifies this, m
      ensures Valid() && procs == old(procs) - {i} && good == old(good) - {i}
      ensures Released(old(m.Now()), m.Now(), Owners(old(procs)[i]))
    {
      ghost var w := m.Now();
      assert SpaceOk(w, procs[i], l, stacks[i]);
      FreeSpace(m, procs[i], l, stacks[i]);
      ReleasedIsConfined(w, m.Now(), Owners(procs[i]));
      OthersKept(w, m.Now(), procs, good, l, stacks, i, Owners(procs[i]));
      procs, good := procs - {i}, good - {i};
    }

    /** userinit, in slot j. */
    method Userinit(j: nat, page: seq<bv8>) returns (o: Outcome)
      requires Valid() && j !in procs && j < |stacks| && LayoutOk(l, stacks[j]) && |page| == PGSIZE
      modifies this, m
      ensures o == InitOf(|old(m.free)|, l, stacks[j])
      ensures !o.Panicked? ==> Valid() && good == (if o.Done? then old(good) + {j} else old(good)) && procs.Keys == old(procs).Keys + {j}
      ensures !o.Panicked? ==> forall k: nat :: k in old(procs) ==> procs[k] == old(procs)[k]
      ensures o.Done? ==> procs[j].sz == PGSIZE && Holds(m.Now(), procs[j].user, 0, Image(page, URWX))
    {
      ghost var w := m.Now();
      var s;
      o, s := InitSpace(m, page, l, stacks[j]);
      if !o.Panicked? {
        ghost var good' := if o.Done? then good + {j} else good;
        NewProcess(w, m.Now(), procs, good, good', l, stacks, j, s);
        procs, good := procs[j := s], good';
      }
    }
  }

  /** Copies reach every page of a new image but the guard page. */
  lemma StackIsGuarded(w: World, t: nat, n: nat)
    requires ImageFlags(w.flat, t, n) && n < TRAPPAGE
    ensures forall v: nat :: v < n ==> (UserPage(w, t, v) <==> v != n - 2)
  {
  }

  lemma FreshIsApart(w: World, procs: Table, good: set<nat>, l: Layout, stacks: seq<Stack>, t: nat)
    requires AllOk(w, procs, good, l, stacks) && Fresh(w, {t})
    ensures forall j: nat :: j in good ==> t !in Owners(procs[j])
  {
    forall j: nat | j in good ensures t !in Owners(procs[j]) {
      var s := procs[j];
      assert SpaceOk(w, s, l, stacks[j]);
      assert !Mine(w.use[s.user], s.user, {t}) && !Mine(w.use[s.kern], s.kern, {t}) && !Mine(w.use[s.frame], s.frame, {t});
    }
  }
}

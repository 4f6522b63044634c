/**
 The page allocators run alone: one free list per CPU (third lab), one list in all (second lab),
 and the second as the specification of the first.
 */
module Kalloc {
  import opened Riscv
  import opened KallocSteps

  type Lists = seq<seq<nat>>

  // ---------------------------------------------------------------------------------------
  // What the calls compute
  // ---------------------------------------------------------------------------------------

  /** The first list from i on, other than cpu's, that has a page; |l| when there is none. */
  function OtherList(l: Lists, cpu: nat, i: nat): (r: nat)
    requires i <= |l|
    ensures i <= r <= |l| && (r < |l| ==> r != cpu && |l[r]| > 0)
    ensures forall k: nat :: i <= k < r && k != cpu ==> |l[k]| == 0
    decreases |l| - i
  {
    if i == |l| then i else if i != cpu && |l[i]| > 0 then i else OtherList(l, cpu, i + 1)
  }

  /** The list kalloc takes from: its own, or the first other one that has a page. */
  function Source(l: Lists, cpu: nat): (r: nat)
    requires cpu < |l|
    ensures r <= |l| && (r < |l| ==> |l[r]| > 0) && (r == |l| <==> forall k: nat :: k < |l| ==> |l[k]| == 0)
  {
    if |l[cpu]| > 0 then cpu else OtherList(l, cpu, 0)
  }

  ghost function Total(l: Lists): nat {
    if |l| == 0 then 0 else Total(l[..|l| - 1]) + |l[|l| - 1]|
  }

  /** Changing one list changes the total by as much. */
  lemma {:induction false} TotalChange(l: Lists, i: nat, s: seq<nat>)
    requires i < |l|
    ensures Total(l[i := s]) == Total(l) - |l[i]| + |s|
  {
    var n := |l| - 1;
    var l' := l[i := s];
    if i == n {
      assert l'[..n] == l[..n];
    } else {
      assert l'[..n] == l[..n][i := s];
      TotalChange(l[..n], i, s);
    }
  }

  lemma {:induction false} TotalIsZero(l: Lists)
    ensures Total(l) == 0 <==> forall k: nat :: k < |l| ==> |l[k]| == 0
  {
    if |l| > 0 {
      var n := |l| - 1;
      TotalIsZero(l[..n]);
      assert forall k: nat :: k < n ==> l[..n][k] == l[k];
    }
  }

  // ---------------------------------------------------------------------------------------
  // Refinement
  // ---------------------------------------------------------------------------------------

  /** A call; pages are freed by the order in which they were allocated. */
  datatype Op = AllocOp(cpu: nat) | FreeOp(cpu: nat, h: nat)

  datatype Many = Many(lists: Lists, held: seq<nat>)
  datatype One = One(list: seq<nat>, held: seq<nat>)

  function Without(held: seq<nat>, h: nat): seq<nat>
    requires h < |held|
  {
    held[..h] + held[h + 1..]
  }

  /** The per-CPU allocator does one call; false when it returns 0 or there is no such page. */
  function DoMany(s: Many, op: Op): (Many, bool)
    requires op.cpu < |s.lists|
  {
    match op
    case AllocOp(cpu) =>
      var i := Source(s.lists, cpu);
      if i == |s.lists| then (s, false)
      else (Many(s.lists[i := s.lists[i][1..]], s.held + [s.lists[i][0]]), true)
    case FreeOp(cpu, h) =>
      if h >= |s.held| then (s, false)
      else (Many(s.lists[cpu := [s.held[h]] + s.lists[cpu]], Without(s.held, h)), true)
  }

  /** The single-list allocator does one call. */
  function DoOne(s: One, op: Op): (One, bool) {
    match op
    case AllocOp(_) => if |s.list| == 0 then (s, false) else (One(s.list[1..], s.held + [s.list[0]]), true)
    case FreeOp(_, h) => if h >= |s.held| then (s, false) else (One([s.held[h]] + s.list, Without(s.held, h)), true)
  }

  predicate OpsOk(ops: seq<Op>, ncpu: nat) {
    forall k: nat :: k < |ops| ==> ops[k].cpu < ncpu
  }

  /** The state after a sequence of calls, and how each of them ended. */
  function RunMany(s: Many, ops: seq<Op>): (r: (Many, seq<bool>))
    requires OpsOk(ops, |s.lists|)
    ensures |r.0.lists| == |s.lists|
  {
    if |ops| == 0 then (s, [])
    else
      var r := RunMany(s, ops[..|ops| - 1]);
      var d := DoMany(r.0, ops[|ops| - 1]);
      (d.0, r.1 + [d.1])
  }

  function RunOne(s: One, ops: seq<Op>): (One, seq<bool>) {
    if |ops| == 0 then (s, [])
    else
      var r := RunOne(s, ops[..|ops| - 1]);
      var d := DoOne(r.0, ops[|ops| - 1]);
      (d.0, r.1 + [d.1])
  }

  /** As many free pages, and as many allocated ones. */
  ghost predicate Matches(m: Many, o: One) {
    Total(m.lists) == |o.list| && |m.held| == |o.held|
  }

  lemma StepRefines(m: Many, o: One, op: Op)
    requires Matches(m, o) && op.cpu < |m.lists|
    ensures Matches(DoMany(m, op).0, DoOne(o, op).0) && DoMany(m, op).1 == DoOne(o, op).1
  {
    TotalIsZero(m.lists);
    match op
    case AllocOp(cpu) =>
      var i := Source(m.lists, cpu);
      if i < |m.lists| {
        TotalChange(m.lists, i, m.lists[i][1..]);
      }
    case FreeOp(cpu, h) =>
      if h < |m.held| {
        TotalChange(m.lists, cpu, [m.held[h]] + m.lists[cpu]);
      }
  }

  /** Through any sequence of calls, whichever CPUs make them, every kalloc of the per-CPU
      allocator succeeds exactly when the single-list one does, and as many pages stay free. */
  lemma {:induction false} PerCpuRefinesSingle(m: Many, o: One, ops: seq<Op>)
    requires Matches(m, o) && OpsOk(ops, |m.lists|)
    ensures RunMany(m, ops).1 == RunOne(o, ops).1 && Matches(RunMany(m, ops).0, RunOne(o, ops).0)
  {
    if |ops| > 0 {
      var n := |ops| - 1;
      PerCpuRefinesSingle(m, o, ops[..n]);
      StepRefines(RunMany(m, ops[..n]).0, RunOne(o, ops[..n]).0, ops[n]);
    }
  }

  // ---------------------------------------------------------------------------------------
  // In place
  // ---------------------------------------------------------------------------------------

  /** No page is twice in the lists. */
  ghost predicate AllDifferent(l: Lists) {
    forall i: nat, k: nat, j: nat, m: nat ::
      i < |l| && j < |l| && k < |l[i]| && m < |l[j]| && l[i][k] == l[j][m] ==> i == j && k == m
  }

  ghost predicate InNoList(l: Lists, x: nat) {
    forall i: nat, k: nat :: i < |l| && k < |l[i]| ==> l[i][k] != x
  }

  lemma EmptyChain(word: map<nat, nat>, head: nat, l: seq<nat>)
    requires Chain(word, head, l)
    ensures head == 0 <==> l == []
  {
    if l != [] {
      assert LinkOk(word, l, 0);
    }
  }

  /** n pages from first on, the last one first. */
  function Stacked(first: nat, n: nat): (s: seq<nat>)
    ensures |s| == n && forall k: nat :: k < n ==> s[k] == first + (n - 1 - k) * PGSIZE
  {
    if n == 0 then [] else [first + (n - 1) * PGSIZE] + Stacked(first, n - 1)
  }

  /** Those pages pushed on list cpu. */
  ghost function WithStack(l: Lists, cpu: nat, first: nat, n: nat): Lists
    requires cpu < |l|
  {
    l[cpu := Stacked(first, n) + l[cpu]]
  }

  lemma NoneStacked(l: Lists, cpu: nat, first: nat)
    requires cpu < |l|
    ensures WithStack(l, cpu, first, 0) == l
  {
    assert Stacked(first, 0) + l[cpu] == l[cpu];
  }

  lemma OneStacked(l: Lists, cpu: nat, first: nat, n: nat)
    requires cpu < |l|
    ensures var l' := WithStack(l, cpu, first, n); l'[cpu := [first + n * PGSIZE] + l'[cpu]] == WithStack(l, cpu, first, n + 1)
  {
    assert [first + n * PGSIZE] + (Stacked(first, n) + l[cpu]) == Stacked(first, n + 1) + l[cpu];
  }

  class PerCpu {
    /** kmems[].freelist, and the first word of each page. */
    const heads: array<nat>
    var word: map<nat, nat>
    ghost var lists: Lists

    ghost predicate Valid()
      reads this, heads
    {
      && heads.Length == |lists| && AllDifferent(lists)
      && forall i: nat :: i < |lists| ==> Chain(word, heads[i], lists[i])
    }

    /** kinit, before freerange. */
    constructor (ncpu: nat)
      ensures Valid() && |lists| == ncpu && forall i: nat :: i < ncpu ==> lists[i] == []
    {
      heads := new nat[ncpu](_ => 0);
      word := map[];
      lists := seq(ncpu, _ => []);
    }

    /** Take the first page of list i, if any (kalloc.c:82-84, 94-96). */
    method Pop(i: nat) returns (r: nat)
      requires Valid() && i < |lists|
      modifies this`lists, heads
      ensures Valid() && (r == 0 <==> |old(lists)[i]| == 0)
      ensures lists == if r == 0 then old(lists) else old(lists)[i := old(lists)[i][1..]]
      ensures r != 0 ==> r == old(lists)[i][0] && InNoList(lists, r)
    {
      assert Chain(word, heads[i], lists[i]);
      EmptyChain(word, heads[i], lists[i]);
      r := heads[i];
      if r != 0 {
        PopKeepsChain(word, heads[i], lists[i]);
        heads[i] := word[r];
        lists := lists[i := lists[i][1..]];
      }
    }

    /** kfree (kalloc.c:51-69). */
    method Kfree(cpu: nat, pa: nat)
      requires Valid() && cpu < |lists| && pa != 0 && InNoList(lists, pa)
      modifies this`word, this`lists, heads
      ensures Valid() && lists == old(lists)[cpu := [pa] + old(lists)[cpu]]
    {
      forall i: nat | i < |lists| ensures Chain(word[pa := heads[cpu]], heads[i], lists[i]) {
        assert Chain(word, heads[i], lists[i]);
        WriteKeepsChain(word, heads[i], lists[i], pa, heads[cpu]);
      }
      word := word[pa := heads[cpu]];
      PushKeepsChain(word, heads[cpu], lists[cpu], pa);
      heads[cpu] := pa;
      lists := lists[cpu := [pa] + lists[cpu]];
    }

    /** kalloc (kalloc.c:75-104), with the word of the page filled with junk: 0 iff every list is
        empty; else the first page of its own list, or of the first other list that has one. */
    method Kalloc(cpu: nat) returns (r: nat)
      requires Valid() && cpu < |lists|
      modifies this`word, this`lists, heads
      ensures Valid() && (r == 0 <==> forall k: nat :: k < |old(lists)| ==> |old(lists)[k]| == 0)
      ensures var i := Source(old(lists), cpu);
              if i == |old(lists)| then r == 0 && lists == old(lists)
              else r == old(lists)[i][0] && lists == old(lists)[i := old(lists)[i][1..]] && InNoList(lists, r)
    {
      r := Pop(cpu);
      if r != 0 {
        Junk(r);
        return;
      }
      var id := 0;
      while id < heads.Length
        invariant 0 <= id <= heads.Length && Valid() && lists == old(lists) && r == 0
        invariant OtherList(lists, cpu, 0) == OtherList(lists, cpu, id) && |lists[cpu]| == 0
      {
        if id != cpu {
          r := Pop(id);
          if r != 0 {
            Junk(r);
            return;
          }
        }
        id := id + 1;
      }
    }

    /** freerange (kalloc.c:38-44): every whole page of the range goes to the calling CPU's list. */
    method Freerange(cpu: nat, start: nat, end: nat) returns (ghost n: nat)
      requires Valid() && cpu < |lists| && start > 0
      requires forall x: nat :: start <= x && x + PGSIZE <= end ==> InNoList(lists, x)
      modifies this`word, this`lists, heads
      ensures Valid() && lists == WithStack(old(lists), cpu, PgRoundUp(start), n)
      ensures PgRoundUp(start) + (n + 1) * PGSIZE > end && (n > 0 ==> PgRoundUp(start) + n * PGSIZE <= end)
    {
      ghost var first := PgRoundUp(start);
      n := 0;
      var p := PgRoundUp(start);
      NoneStacked(lists, cpu, first);
      while p + PGSIZE <= end
        invariant Valid() && p == first + n * PGSIZE && (n > 0 ==> p <= end)
        invariant lists == WithStack(old(lists), cpu, first, n)
      {
        NotYet(old(lists), cpu, first, n, p);
        OneStacked(old(lists), cpu, first, n);
        Kfree(cpu, p);
        n := n + 1;
        p := p + PGSIZE;
      }
    }

    /** memset of a page that is in no list. */
    method Junk(r: nat)
      requires Valid() && InNoList(lists, r)
      modifies this`word
      ensures Valid()
    {
      forall i: nat | i < |lists| ensures Chain(word[r := 0x0505_0505_0505_0505], heads[i], lists[i]) {
        assert Chain(word, heads[i], lists[i]);
        WriteKeepsChain(word, heads[i], lists[i], r, 0x0505_0505_0505_0505);
      }
      word := word[r := 0x0505_0505_0505_0505];
    }
  }

  lemma NotYet(l: Lists, cpu: nat, first: nat, n: nat, p: nat)
    requires cpu < |l| && InNoList(l, p) && p == first + n * PGSIZE
    ensures InNoList(WithStack(l, cpu, first, n), p)
  {
    var l' := WithStack(l, cpu, first, n);
    forall i: nat, k: nat | i < |l'| && k < |l'[i]| ensures l'[i][k] != p {
      if i == cpu && k >= n {
        assert l'[i][k] == l[cpu][k - n];
      }
    }
  }

  /** The single free list (kalloc.c of the second lab). */
  class Single {
    var head: nat
    var word: map<nat, nat>
    ghost var list: seq<nat>

    ghost predicate Valid()
      reads this
    {
      Chain(word, head, list) && forall i: nat, k: nat :: i < k < |list| ==> list[i] != list[k]
    }

    method Kfree(pa: nat)
      requires Valid() && pa != 0 && pa !in list
      modifies this
      ensures Valid() && list == [pa] + old(list)
    {
      WriteKeepsChain(word, head, list, pa, head);
      word := word[pa := head];
      PushKeepsChain(word, head, list, pa);
      head := pa;
      list := [pa] + list;
    }

    method Kalloc() returns (r: nat)
      requires Valid()
      modifies this
      ensures Valid() && (r == 0 <==> old(list) == [])
      ensures if r == 0 then list == old(list) else r == old(list)[0] && list == old(list)[1..]
    {
      EmptyChain(word, head, list);
      r := head;
      if r != 0 {
        PopKeepsChain(word, head, list);
        head := word[r];
        list := list[1..];
        WriteKeepsChain(word, head, list, r, 0x0505_0505_0505_0505);
        word := word[r := 0x0505_0505_0505_0505];
      }
    }

    /** infofreemem: the bytes in the list. */
    method Infofreemem() returns (freemem: nat)
      requires Valid()
      ensures freemem == |list| * PGSIZE
    {
      freemem := 0;
      var r := head;
      ghost var k := 0;
      forall i: nat | i < |list| ensures list[i] != 0 {
        assert LinkOk(word, list, i);
      }
      while r != 0
        invariant k <= |list| && freemem == k * PGSIZE && r == (if k < |list| then list[k] else 0)
        invariant forall i: nat :: i < |list| ==> list[i] != 0
        decreases |list| - k
      {
        assert LinkOk(word, list, k);
        r := word[r];
        freemem := freemem + PGSIZE;
        k := k + 1;
      }
    }
  }
}

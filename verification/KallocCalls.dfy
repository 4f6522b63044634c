/**
 Whole calls of the per-CPU page allocator: what a kalloc that ends with 0 has seen, in any run,
 and what kalloc and kfree do while nobody else is inside.
 */
module KallocCalls {
  import opened Common
  import opened KallocSteps
  import opened Kalloc

  // ---------------------------------------------------------------------------------------
  // What a kalloc has seen
  // ---------------------------------------------------------------------------------------

  /** p reads the head of list i, which is empty, with its lock held. */
  ghost predicate FindsEmpty(s: State, p: nat, a: Action, i: nat) {
    a.Go? && p < |s.pcs| && s.pcs[p].Alloc? && s.pcs[p].a.ARead? && s.pcs[p].j == i
    && i < |s.lists| && s.lists[i] == [] && i < |s.locks| && s.locks[i] == Some(p)
  }

  /** What p has found empty after a step of m.p, given what it had before. */
  ghost function Saw(found: seq<nat>, s: State, m: Move, p: nat): seq<nat> {
    if m.p != p then found
    else if m.a.CallAlloc? then []
    else if p < |s.pcs| && s.pcs[p].Alloc? && FindsEmpty(s, p, m.a, s.pcs[p].j) then found + [s.pcs[p].j]
    else found
  }

  /** The lists that p has found empty since its last kalloc began, read off the run. */
  ghost function Found(run: seq<State>, moves: seq<Move>, k: nat, p: nat): seq<nat>
    requires k <= |moves| < |run|
  {
    if k == 0 then [] else Saw(Found(run, moves, k - 1, p), run[k - 1], moves[k - 1], p)
  }

  /** The t-th list a kalloc on cpu looks at: its own, then the others from the first on. */
  function Tour(cpu: nat, t: nat): nat {
    if t == 0 then cpu else if t <= cpu then t - 1 else t
  }

  /** How many lists it looks at before list j. */
  function Before(cpu: nat, j: nat): nat {
    if j == cpu then 0 else if j < cpu then j + 1 else j
  }

  lemma TourMeets(cpu: nat, j: nat)
    ensures Tour(cpu, Before(cpu, j)) == j
  {
  }

  /** The lists found are the first n of the tour. */
  ghost predicate Toured(found: seq<nat>, cpu: nat, n: nat) {
    |found| == n && forall t: nat :: t < n ==> found[t] == Tour(cpu, t)
  }

  /** How many empty lists a process inside kalloc has behind it. */
  function Behind(pc: Pc): nat
    requires pc.Alloc?
  {
    Before(pc.cpu, pc.j) + (if pc.a == ARel(0) then 1 else 0)
  }

  lemma NextIsLater(cpu: nat, j: nat, n: nat)
    requires cpu < n && j < n
    ensures match NextList(cpu, j, n) case Some(i) => i < n && Before(cpu, i) == Before(cpu, j) + 1 case None => Before(cpu, j) + 1 == n
  {
  }

  ghost predicate Looks(pc: Pc, found: seq<nat>, n: nat) {
    pc.Alloc? ==> pc.cpu < n && pc.j < n && Toured(found, pc.cpu, Behind(pc))
  }

  lemma StepLooks(s: State, m: Move, p: nat, s': State, found: seq<nat>)
    requires Inv(s) && p < |s.pcs| && m.p < |s.pcs| && Do(s, m.p, m.a) == Some(s') && Looks(s.pcs[p], found, |s.lists|)
    ensures p < |s'.pcs| && Looks(s'.pcs[p], Saw(found, s, m, p), |s.lists|)
  {
    var pc := s.pcs[p];
    StepMoves(s, m.p, m.a, s');
    if m.p == p && m.a.Go? && pc.Alloc? {
      NextIsLater(pc.cpu, pc.j, |s.lists|);
      TourMeets(pc.cpu, pc.j);
      assert (pc.a.ARead? ==> (s.heads[pc.j] == 0 <==> s.lists[pc.j] == []) && s.locks[pc.j] == Some(p)) && (pc.a.ASet? ==> pc.a.r != 0) by {
        assert Knows(s, p, pc) && Chain(s.word, s.heads[pc.j], s.lists[pc.j]);
        EmptyChain(s.word, s.heads[pc.j], s.lists[pc.j]);
      }
    }
  }

  /** In every run the lists a kalloc has found empty are those before the one it is at, in the
      order of the source: its own first, then from list 0 on. */
  lemma {:induction false} LooksInOrder(run: seq<State>, moves: seq<Move>, k: nat, p: nat)
    requires IsRun(run, moves) && k < |run| && p < |run[k].pcs|
    ensures Looks(run[k].pcs[p], Found(run, moves, k, p), |run[k].lists|)
  {
    if k > 0 {
      var s, m := run[k - 1], moves[k - 1];
      assert Inv(s) by { RunKeepsInv(run, moves, k - 1); }
      assert StepAt(run, moves, k - 1);
      assert |run[k].lists| == |s.lists| && |run[k].pcs| == |s.pcs| by { StepKeepsInv(s, m.p, m.a, run[k]); }
      LooksInOrder(run, moves, k - 1, p);
      StepLooks(s, m, p, run[k], Found(run, moves, k - 1, p));
    }
  }

  /** p has found list i empty at step m, and its kalloc began before that. */
  ghost predicate SeenEmpty(run: seq<State>, moves: seq<Move>, p: nat, i: nat, m: nat, k: nat) {
    && m < k <= |moves| < |run| && moves[m].p == p && FindsEmpty(run[m], p, moves[m].a, i)
    && forall l: nat :: m <= l < k && moves[l].p == p ==> !moves[l].a.CallAlloc?
  }

  lemma {:induction false} FoundWasEmpty(run: seq<State>, moves: seq<Move>, k: nat, p: nat, i: nat) returns (m: nat)
    requires k <= |moves| < |run| && i in Found(run, moves, k, p)
    ensures SeenEmpty(run, moves, p, i, m, k)
  {
    if i in Found(run, moves, k - 1, p) && Found(run, moves, k, p) != [] {
      m := FoundWasEmpty(run, moves, k - 1, p, i);
    } else {
      m := k - 1;
    }
  }

  /** In every run a kalloc that ends with 0 has found each list of the machine empty, under that
      list's lock, since it was called; one that ends with a page owns it. */
  lemma EndsWithZero(run: seq<State>, moves: seq<Move>, k: nat, p: nat, i: nat) returns (m: nat)
    requires IsRun(run, moves) && k < |moves| && moves[k].p == p && p < |run[k].pcs| && p < |run[k + 1].pcs|
    requires run[k].pcs[p].Alloc? && run[k + 1].pcs[p].Idle? && i < |run[k].lists|
    ensures run[k].pcs[p].a.ARel?
    ensures run[k].pcs[p].a.r == 0 ==> SeenEmpty(run, moves, p, i, m, k)
    ensures run[k].pcs[p].a.r != 0 ==> run[k].pcs[p].a.r in run[k].place && run[k].place[run[k].pcs[p].a.r] == Own(p)
  {
    var s, pc := run[k], run[k].pcs[p];
    RunKeepsInv(run, moves, k);
    assert StepAt(run, moves, k);
    assert Knows(s, p, pc);
    m := 0;
    if pc.a.r == 0 {
      LooksInOrder(run, moves, k, p);
      NextIsLater(pc.cpu, pc.j, |s.lists|);
      TourMeets(pc.cpu, i);
      assert Found(run, moves, k, p)[Before(pc.cpu, i)] == i;
      m := FoundWasEmpty(run, moves, k, p, i);
    }
  }

  // ---------------------------------------------------------------------------------------
  // Alone
  // ---------------------------------------------------------------------------------------

  /** p takes n steps and nobody else does. */
  ghost function Alone(s: State, p: nat, n: nat): Option<State>
    decreases n
  {
    if n == 0 then Some(s)
    else if p < |s.pcs| && Shape(s) && Do(s, p, Go).Some? then Alone(Do(s, p, Go).value, p, n - 1)
    else None
  }

  lemma {:induction false} AloneThen(s: State, p: nat, n: nat, m: nat)
    requires Alone(s, p, n).Some?
    ensures Alone(s, p, n + m) == Alone(Alone(s, p, n).value, p, m)
    decreases n
  {
    if n > 0 {
      AloneThen(Do(s, p, Go).value, p, n - 1, m);
    }
  }

  lemma OneMore(s: State, p: nat, n: nat, t: State, u: State)
    requires Alone(s, p, n) == Some(t) && p < |t.pcs| && Shape(t) && Do(t, p, Go) == Some(u)
    ensures Alone(s, p, n + 1) == Some(u)
  {
    AloneThen(s, p, n, 1);
    assert Alone(u, p, 0) == Some(u);
  }

  lemma ThreeAlone(s: State, p: nat, s1: State, s2: State, s3: State) returns (n: nat)
    requires p < |s.pcs| && Shape(s) && Do(s, p, Go) == Some(s1)
    requires p < |s1.pcs| && Shape(s1) && Do(s1, p, Go) == Some(s2)
    requires p < |s2.pcs| && Shape(s2) && Do(s2, p, Go) == Some(s3)
    ensures Alone(s, p, n) == Some(s3)
  {
    n := 0;
    assert Alone(s, p, n) == Some(s);
    OneMore(s, p, n, s, s1);
    OneMore(s, p, n + 1, s1, s2);
    OneMore(s, p, n + 2, s2, s3);
    n := n + 3;
  }

  ghost predicate NoLocks(s: State) {
    forall i: nat :: i < |s.locks| ==> s.locks[i].None?
  }

  /** A list found empty: lock, read, unlock, and on to the next list or out. */
  lemma EmptyVisit(s: State, p: nat, cpu: nat, j: nat) returns (n: nat)
    requires Inv(s) && p < |s.pcs| && s.pcs[p] == Alloc(cpu, j, AWant) && s.locks[j].None? && s.lists[j] == []
    ensures Alone(s, p, n) == Some(At(s, p, match NextList(cpu, j, |s.locks|) case Some(i) => Alloc(cpu, i, AWant) case None => Idle))
  {
    assert Chain(s.word, s.heads[j], s.lists[j]);
    var s1 := At(s, p, Alloc(cpu, j, ARead)).(locks := s.locks[j := Some(p)]);
    var s2 := At(s1, p, Alloc(cpu, j, ARel(0)));
    var s3 := At(s, p, match NextList(cpu, j, |s.locks|) case Some(i) => Alloc(cpu, i, AWant) case None => Idle);
    assert s1.locks[j := None] == s.locks;
    assert s2.pcs[p := s3.pcs[p]] == s3.pcs;
    n := ThreeAlone(s, p, s1, s2, s3);
  }

  /** A list that has a page: lock, read, take the first page, unlock. */
  lemma FullVisit(s: State, p: nat, cpu: nat, j: nat) returns (n: nat)
    requires Inv(s) && p < |s.pcs| && s.pcs[p] == Alloc(cpu, j, AWant) && s.locks[j].None? && |s.lists[j]| > 0
    ensures s.lists[j][0] in s.word && Alone(s, p, n) == Some(At(Popped(s, j, p), p, Idle))
  {
    assert Chain(s.word, s.heads[j], s.lists[j]);
    assert LinkOk(s.word, s.lists[j], 0);
    var r := s.lists[j][0];
    var s1 := At(s, p, Alloc(cpu, j, ARead)).(locks := s.locks[j := Some(p)]);
    var s2 := At(s1, p, Alloc(cpu, j, ASet(r)));
    var s3 := At(Popped(s2, j, p), p, Alloc(cpu, j, ARel(r)));
    var s4 := At(Popped(s, j, p), p, Idle);
    assert s3.locks[j := None] == s4.locks;
    assert s3.pcs[p := Idle] == s4.pcs;
    n := ThreeAlone(s, p, s1, s2, s3);
    OneMore(s, p, n, s3, s4);
    n := n + 1;
  }

  /** What kalloc leaves: nothing changed, or the first page of list i with p. */
  ghost function Allocated(s: State, p: nat, i: nat): State
    requires i < |s.lists| ==> |s.heads| == |s.lists| && |s.lists[i]| > 0 && s.lists[i][0] in s.word
  {
    if i < |s.lists| then Popped(s, i, p) else s
  }

  ghost predicate EmptyBefore(s: State, cpu: nat, j: nat) {
    forall i: nat :: i < |s.lists| && Before(cpu, i) < Before(cpu, j) ==> s.lists[i] == []
  }

  /** The first list on the tour that has a page is the one the sequential allocator takes from. */
  lemma FirstOnTour(s: State, cpu: nat, j: nat)
    requires cpu < |s.lists| && j < |s.lists| && EmptyBefore(s, cpu, j) && |s.lists[j]| > 0
    ensures Source(s.lists, cpu) == j
  {
    if j != cpu {
      assert s.lists[cpu] == [];
      assert OtherList(s.lists, cpu, 0) >= j;
    }
  }

  lemma {:induction false} AloneKeepsInv(s: State, p: nat, n: nat)
    requires Inv(s) && Alone(s, p, n).Some?
    ensures Inv(Alone(s, p, n).value)
    decreases n
  {
    if n > 0 {
      StepKeepsInv(s, p, Go, Do(s, p, Go).value);
      AloneKeepsInv(Do(s, p, Go).value, p, n - 1);
    }
  }

  /** An empty list has been passed. */
  lemma PassedOne(s: State, cpu: nat, j: nat, i: nat)
    requires cpu < |s.lists| && j < |s.lists| && EmptyBefore(s, cpu, j) && s.lists[j] == [] && Before(cpu, i) == Before(cpu, j) + 1
    ensures EmptyBefore(s, cpu, i)
  {
    TourMeets(cpu, j);
    forall l: nat | l < |s.lists| && Before(cpu, l) < Before(cpu, i) ensures s.lists[l] == [] {
      TourMeets(cpu, l);
    }
  }

  /** No list is left. */
  lemma AllPassed(s: State, cpu: nat, j: nat)
    requires cpu < |s.lists| && j < |s.lists| && EmptyBefore(s, cpu, j) && s.lists[j] == [] && Before(cpu, j) + 1 == |s.lists|
    ensures Source(s.lists, cpu) == |s.lists|
  {
    TourMeets(cpu, j);
    forall l: nat | l < |s.lists| ensures |s.lists[l]| == 0 {
      TourMeets(cpu, l);
    }
  }

  ghost predicate EndsAllocated(s: State, p: nat, cpu: nat, n: nat)
    requires p < |s.pcs| && cpu < |s.lists| == |s.heads|
  {
    var i := Source(s.lists, cpu);
    (i < |s.lists| ==> s.lists[i][0] in s.word) && Alone(s, p, n) == Some(At(Allocated(s, p, i), p, Idle))
  }

  lemma EndsLater(s: State, p: nat, cpu: nat, pc: Pc, m: nat, n: nat)
    requires p < |s.pcs| && cpu < |s.lists| == |s.heads|
    requires Alone(s, p, m) == Some(At(s, p, pc)) && EndsAllocated(At(s, p, pc), p, cpu, n)
    ensures EndsAllocated(s, p, cpu, m + n)
  {
    AloneThen(s, p, m, n);
    assert s.pcs[p := pc][p := Idle] == s.pcs[p := Idle];
  }

  /** A call that has come to list j with every list before it empty. */
  lemma {:induction false} AllocFrom(s: State, p: nat, cpu: nat, j: nat) returns (n: nat)
    requires Inv(s) && p < |s.pcs| && s.pcs[p] == Alloc(cpu, j, AWant) && NoLocks(s) && cpu < |s.lists| && j < |s.lists|
    requires EmptyBefore(s, cpu, j)
    ensures EndsAllocated(s, p, cpu, n)
    decreases |s.lists| - Before(cpu, j)
  {
    if |s.lists[j]| > 0 {
      n := FullVisit(s, p, cpu, j);
      FirstOnTour(s, cpu, j);
    } else {
      n := EmptyVisit(s, p, cpu, j);
      NextIsLater(cpu, j, |s.lists|);
      AloneKeepsInv(s, p, n);
      match NextList(cpu, j, |s.locks|)
      case Some(i) =>
        PassedOne(s, cpu, j, i);
        var m := AllocFrom(At(s, p, Alloc(cpu, i, AWant)), p, cpu, i);
        EndsLater(s, p, cpu, Alloc(cpu, i, AWant), n, m);
        n := n + m;
      case None =>
        AllPassed(s, cpu, j);
    }
  }

  /** kalloc with no lock held by anybody ends as the sequential allocator says: p gets the first
      page of its own list, or of the first other list that has one, and no other list, page or
      process changes; with every list empty nothing changes at all. */
  lemma AllocAlone(s: State, p: nat, cpu: nat) returns (n: nat)
    requires Inv(s) && p < |s.pcs| && s.pcs[p].Idle? && NoLocks(s) && cpu < |s.lists|
    ensures var i := Source(s.lists, cpu);
            && (i < |s.lists| ==> s.lists[i][0] in s.word)
            && Do(s, p, CallAlloc(cpu)).Some?
            && Alone(Do(s, p, CallAlloc(cpu)).value, p, n) == Some(Allocated(s, p, i))
  {
    var t := At(s, p, Alloc(cpu, cpu, AWant));
    assert Do(s, p, CallAlloc(cpu)) == Some(t);
    StepKeepsInv(s, p, CallAlloc(cpu), t);
    n := AllocFrom(t, p, cpu, cpu);
    assert t.pcs[p := Idle] == s.pcs;
  }

  /** kfree with no lock held by anybody: the page becomes the first of the caller's list, and no
      other list, page or process changes. */
  lemma FreeAlone(s: State, p: nat, page: nat, cpu: nat) returns (n: nat)
    requires Inv(s) && p < |s.pcs| && s.pcs[p].Idle? && NoLocks(s) && cpu < |s.lists| && page in s.place && s.place[page] == Own(p)
    ensures Do(s, p, CallFree(page, cpu)).Some?
    ensures Alone(Do(s, p, CallFree(page, cpu)).value, p, n) ==
              Some(s.(word := s.word[page := s.heads[cpu]], heads := s.heads[cpu := page], lists := s.lists[cpu := [page] + s.lists[cpu]],
                      place := s.place[page := InList(cpu, |s.lists[cpu]|)]))
  {
    var t := At(s, p, Free(page, cpu, FWant));
    var s1 := At(s, p, Free(page, cpu, FLink)).(locks := s.locks[cpu := Some(p)]);
    var s2 := At(s1, p, Free(page, cpu, FSet)).(word := s.word[page := s.heads[cpu]]);
    var s3 := At(Pushed(s2, cpu, page), p, Free(page, cpu, FRel));
    var s4 := Pushed(s.(word := s.word[page := s.heads[cpu]]), cpu, page);
    assert t.pcs[p := s1.pcs[p]] == s1.pcs;
    assert s3.locks[cpu := None] == s4.locks;
    assert s3.pcs[p := Idle] == s4.pcs;
    n := ThreeAlone(t, p, s1, s2, s3);
    OneMore(t, p, n, s3, s4);
    n := n + 1;
  }
}

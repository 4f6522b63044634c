/**
 bget by one process while nobody else is inside: every such run, step by step, and its agreement
 with the lists of BcacheLists.
 */
module BcacheAlone {
  import opened Common
  import opened BcacheSteps
  import Lists = BcacheLists

  // ---------------------------------------------------------------------------------------
  // Where bget alone can be
  // ---------------------------------------------------------------------------------------

  predicate NoLocks(s: State)
    requires Shape(s)
  {
    forall h: nat :: h < NBUCKETS ==> s.lock[h].None?
  }

  /** No bucket has a free buffer. */
  predicate NoneFree(s: State) {
    forall h: nat :: h < NBUCKETS ==> NoFree(s, h)
  }

  /** The first m rounds of the sweep from bucket h find nothing. */
  predicate NothingIn(s: State, h: nat, m: nat) {
    forall u: nat :: u < m ==> NoFree(s, Lists.Visits(h, u))
  }

  /** Buffer b is free in the bucket of round m, and no earlier bucket has a free one. */
  predicate FirstAt(s: State, h: nat, m: nat, b: nat) {
    && NoFree(s, h) && NothingIn(s, h, m) && m < 12
    && b < |s.bufs| && s.bufs[b].refcnt == 0 && s.bufs[b].bucket == Lists.Visits(h, m)
  }

  /** The buffer bget may return for block k: the one that has the key; else a free one at home;
      else a free one of the first bucket of the sweep that has one. */
  ghost predicate Chosen(s: State, k: Key, b: nat) {
    var h := Home(k);
    if !NoHit(s, h, k) then b < |s.bufs| && s.bufs[b].bucket == h && s.bufs[b].key == k
    else if !NoFree(s, h) then b < |s.bufs| && s.bufs[b].bucket == h && s.bufs[b].refcnt == 0
    else exists m: nat :: FirstAt(s, h, m, b)
  }

  /** What bget does to the buffer it returns. */
  function Assigned(s: State, k: Key, b: nat): Buf
    requires b < |s.bufs|
  {
    if !NoHit(s, Home(k), k) then s.bufs[b].(refcnt := s.bufs[b].refcnt + 1)
    else s.bufs[b].(key := k, valid := false, refcnt := 1, bucket := Home(k))
  }

  /** Process p, which called bget(k) in state s, is in state t with position c. */
  predicate Frame(s: State, p: Pid, t: State, c: Pc) {
    Shape(t) && t.disk == s.disk && t.pins == s.pins && t.sloppy == s.sloppy && t.pc == s.pc[p := c]
  }

  predicate Untouched(s: State, t: State) {
    t.bufs == s.bufs && t.refs == s.refs
  }

  ghost predicate Took(s: State, p: Pid, k: Key, t: State, b: nat)
    requires Shape(s)
  {
    Chosen(s, k, b) && b < |s.bufs| && t.bufs == s.bufs[b := Assigned(s, k, b)] && t.refs == s.refs[b := s.refs[b] + multiset{p}]
  }

  /** The sweep is in round m, r steps into it, after n steps in all. */
  predicate Sweeps(s: State, k: Key, m: nat, n: nat, r: nat) {
    && NoHit(s, Home(k), k) && NoFree(s, Home(k)) && NothingIn(s, Home(k), m)
    && if m <= 12 then n == 3 + 4 * m + r else Home(k) == 0
  }

  function Mine(s: State, p: Pid, h: nat): seq<Option<Pid>>
    requires Shape(s) && h < NBUCKETS
  {
    s.lock[h := Option.Some(p)]
  }

  /** Where p can be n steps after it called bget(k) in state s, in round m of its sweep if it has
      come to that, and what it has changed. */
  ghost predicate SoloAt(s: State, p: Pid, k: Key, n: nat, m: nat, t: State)
    requires Shape(s)
  {
    var c, h := PcOf(t.pc, p), Home(k);
    Frame(s, p, t, c) && match c
      case WantHome(x) => x == k && n == 0 && Untouched(s, t) && t.lock == s.lock
      case Lookup(x) => x == k && n == 1 && Untouched(s, t) && t.lock == Mine(s, p, h)
      case Recycle(x) => x == k && n == 2 && Untouched(s, t) && t.lock == Mine(s, p, h) && NoHit(s, h, k)
      case SweepTest(x, f) => x == k && f == Lists.FindCount(h, m) && Sweeps(s, k, m, n, 0) && Untouched(s, t) && t.lock == Mine(s, p, h)
      case SweepPeek(x, f) => x == k && f == Lists.Visits(h, m) && Lists.FindCount(h, m) != h && Sweeps(s, k, m, n, 1) && Untouched(s, t) && t.lock == Mine(s, p, h)
      case SweepWait(x, f) => x == k && f == Lists.Visits(h, m) && f != h && Sweeps(s, k, m, n, 2) && Untouched(s, t) && t.lock == Mine(s, p, h)
      case SweepScan(x, f) => x == k && f == Lists.Visits(h, m) && f != h && Sweeps(s, k, m, n, 3) && Untouched(s, t) && t.lock == Mine(s, p, h)[f := Option.Some(p)]
      case DropVictim(x, f, b) => x == k && f < NBUCKETS && f != h && n <= 60 && Took(s, p, k, t, b) && t.lock == Mine(s, p, h)[f := Option.Some(p)]
      case DropHome(x, b) => x == k && n <= 61 && Took(s, p, k, t, b) && t.lock == Mine(s, p, h)
      case WantBuf(x, b) => x == k && n <= 62 && Took(s, p, k, t, b) && t.lock == s.lock
      case NoBuffers(x) => x == k && n <= 60 && NoHit(s, h, k) && NoneFree(s) && h != 0 && Untouched(s, t) && t.lock == Mine(s, p, h)
      case Panicked => n <= 61 && NoHit(s, h, k) && NoneFree(s) && h != 0 && Untouched(s, t) && t.lock == s.lock
      case _ => false
  }

  /** Twelve rounds that find nothing, and nothing at home, mean that nothing is free. */
  lemma AllSwept(s: State, h: nat, m: nat)
    requires h < NBUCKETS && NoFree(s, h) && NothingIn(s, h, m) && m >= 12
    ensures NoneFree(s)
  {
    forall k: nat | k < NBUCKETS ensures NoFree(s, k) {
      if k != h {
        Lists.SweepVisitsOnce(h, k);
        var t: nat :| t < 12 && Lists.Visits(h, t) == k;
      }
    }
  }

  /** A round that finds a free buffer is one of the first twelve. */
  lemma FoundEarly(s: State, h: nat, m: nat)
    requires h < NBUCKETS && NoFree(s, h) && NothingIn(s, h, m) && !NoFree(s, Lists.Visits(h, m))
    ensures m < 12
  {
    if m >= 12 {
      AllSwept(s, h, m);
    }
  }

  /** p's step before it has looked at its home bucket. */
  lemma EarlyStep(s: State, p: Pid, k: Key, n: nat, t: State, a: Action)
    requires Shape(s) && NoLocks(s) && SoloAt(s, p, k, n, 0, t) && DoGet(t, p, a).Some?
    requires var c := PcOf(t.pc, p); c.WantHome? || c.Lookup? || c.Recycle?
    ensures SoloAt(s, p, k, n + 1, 0, DoGet(t, p, a).value)
  {
    var t' := DoGet(t, p, a).value;
    assert t.pc[p := PcOf(t'.pc, p)] == s.pc[p := PcOf(t'.pc, p)];
    assert Lists.FindCount(Home(k), 0) == Home(k) + 1;
  }

  /** The test of the sweep. */
  lemma TestStep(s: State, p: Pid, k: Key, n: nat, m: nat, t: State, a: Action)
    requires Shape(s) && NoLocks(s) && SoloAt(s, p, k, n, m, t) && DoGet(t, p, a).Some? && PcOf(t.pc, p).SweepTest?
    ensures SoloAt(s, p, k, n + 1, m, DoGet(t, p, a).value)
  {
    var t', h := DoGet(t, p, a).value, Home(k);
    assert t.pc[p := PcOf(t'.pc, p)] == s.pc[p := PcOf(t'.pc, p)];
    Lists.FindCountIs(h, m);
    if Lists.FindCount(h, m) == h {
      if m < 12 {
        Lists.TestHolds(h, m);
      } else {
        AllSwept(s, h, m);
      }
    }
  }

  /** The unlocked look at a bucket lock; only the home lock is held. */
  lemma PeekStep(s: State, p: Pid, k: Key, n: nat, m: nat, t: State, a: Action) returns (m': nat)
    requires Shape(s) && NoLocks(s) && SoloAt(s, p, k, n, m, t) && DoGet(t, p, a).Some? && PcOf(t.pc, p).SweepPeek?
    ensures SoloAt(s, p, k, n + 1, m', DoGet(t, p, a).value)
  {
    var t', h := DoGet(t, p, a).value, Home(k);
    assert t.pc[p := PcOf(t'.pc, p)] == s.pc[p := PcOf(t'.pc, p)];
    Lists.FindCountIs(h, m);
    m' := m;
    if t.lock[Lists.Visits(h, m)].Some? {
      m' := m + 1;
      assert Lists.Visits(h, m) == h;
      if m < 12 {
        Lists.TestHolds(h, m);
      } else if m == 12 {
        Lists.TestHolds(h, m);
      }
    }
  }

  lemma WaitStep(s: State, p: Pid, k: Key, n: nat, m: nat, t: State, a: Action)
    requires Shape(s) && NoLocks(s) && SoloAt(s, p, k, n, m, t) && DoGet(t, p, a).Some? && PcOf(t.pc, p).SweepWait?
    ensures SoloAt(s, p, k, n + 1, m, DoGet(t, p, a).value)
  {
    var t' := DoGet(t, p, a).value;
    assert t.pc[p := PcOf(t'.pc, p)] == s.pc[p := PcOf(t'.pc, p)];
  }

  /** The search of another bucket. */
  lemma ScanStep(s: State, p: Pid, k: Key, n: nat, m: nat, t: State, a: Action) returns (m': nat)
    requires Shape(s) && NoLocks(s) && SoloAt(s, p, k, n, m, t) && DoGet(t, p, a).Some? && PcOf(t.pc, p).SweepScan?
    ensures SoloAt(s, p, k, n + 1, m', DoGet(t, p, a).value)
  {
    var t', h, f := DoGet(t, p, a).value, Home(k), Lists.Visits(Home(k), m);
    assert t.pc[p := PcOf(t'.pc, p)] == s.pc[p := PcOf(t'.pc, p)];
    Lists.FindCountIs(h, m);
    m' := m;
    if a.NoneAtVictim? {
      m' := m + 1;
      assert Mine(s, p, h)[f := Option.Some(p)][f := Option.None] == Mine(s, p, h);
      if m == 12 {
        Lists.TestHolds(h, m);
      }
    } else {
      assert !NoFree(s, f);
      FoundEarly(s, h, m);
      assert FirstAt(s, h, m, a.b);
    }
  }

  /** The locks are given back. */
  lemma LateStep(s: State, p: Pid, k: Key, n: nat, m: nat, t: State, a: Action)
    requires Shape(s) && NoLocks(s) && SoloAt(s, p, k, n, m, t) && DoGet(t, p, a).Some?
    requires var c := PcOf(t.pc, p); c.DropVictim? || c.DropHome? || c.NoBuffers?
    ensures SoloAt(s, p, k, n + 1, m, DoGet(t, p, a).value)
  {
    var t', c, h := DoGet(t, p, a).value, PcOf(t.pc, p), Home(k);
    assert t.pc[p := PcOf(t'.pc, p)] == s.pc[p := PcOf(t'.pc, p)];
    assert Mine(s, p, h)[h := Option.None] == s.lock;
    if c.DropVictim? {
      assert Mine(s, p, h)[c.f := Option.Some(p)][c.f := Option.None] == Mine(s, p, h);
    }
  }

  /** Every step of p keeps it. */
  lemma SoloStep(s: State, p: Pid, k: Key, n: nat, m: nat, t: State, a: Action) returns (m': nat)
    requires Shape(s) && NoLocks(s) && SoloAt(s, p, k, n, m, t) && DoGet(t, p, a).Some?
    ensures SoloAt(s, p, k, n + 1, m', DoGet(t, p, a).value)
  {
    var c := PcOf(t.pc, p);
    m' := m;
    if c.WantHome? || c.Lookup? || c.Recycle? {
      EarlyStep(s, p, k, n, t, a);
      m' := 0;
    } else if c.SweepTest? {
      TestStep(s, p, k, n, m, t, a);
    } else if c.SweepPeek? {
      m' := PeekStep(s, p, k, n, m, t, a);
    } else if c.SweepWait? {
      WaitStep(s, p, k, n, m, t, a);
    } else if c.SweepScan? {
      m' := ScanStep(s, p, k, n, m, t, a);
    } else {
      LateStep(s, p, k, n, m, t, a);
    }
  }

  // ---------------------------------------------------------------------------------------
  // Runs of bget alone
  // ---------------------------------------------------------------------------------------

  /** Always true: under it a step is a mere name to the verifier until it is looked into. */
  predicate StepKey(k: nat) {
    true
  }

  /** Some step of p inside bget leads from t to u. */
  ghost predicate Goes(t: State, p: Pid, u: State) {
    forall j: nat :: StepKey(j) ==> Shape(t) && exists a: Action :: DoGet(t, p, a) == Option.Some(u) && Do(t, p, a) == Option.Some(u)
  }

  /** n steps of p, and of nobody else, lead from t to u. */
  ghost predicate Alone(t: State, p: Pid, n: nat, u: State)
    decreases n
  {
    if n == 0 then t == u else exists r :: Alone(t, p, n - 1, r) && Goes(r, p, u)
  }

  lemma GoStep(t: State, p: Pid, a: Action, u: State)
    requires Shape(t) && DoGet(t, p, a) == Option.Some(u)
    ensures Goes(t, p, u)
  {
  }

  lemma OneMore(t: State, p: Pid, n: nat, r: State, u: State)
    requires Alone(t, p, n, r) && Goes(r, p, u)
    ensures Alone(t, p, n + 1, u)
  {
  }

  /** p has just called bget(k), and no bucket is locked. */
  ghost predicate Quiet(s: State, p: Pid, k: Key) {
    Shape(s) && NoLocks(s) && PcOf(s.pc, p).Idle? && k.dev != 0
  }

  function Called(s: State, p: Pid, k: Key): State {
    Goto(s, p, WantHome(k))
  }

  lemma GoesOn(s: State, p: Pid, k: Key, n: nat, m: nat, t: State, u: State) returns (m': nat)
    requires Quiet(s, p, k) && SoloAt(s, p, k, n, m, t) && Goes(t, p, u)
    ensures SoloAt(s, p, k, n + 1, m', u)
  {
    assert StepKey(0);
    var a: Action :| DoGet(t, p, a) == Option.Some(u) && Do(t, p, a) == Option.Some(u);
    m' := SoloStep(s, p, k, n, m, t, a);
  }

  /** Whatever p does alone, it is where `SoloAt` says. */
  lemma {:induction false} AloneIsSolo(s: State, p: Pid, k: Key, n: nat, t: State) returns (m: nat)
    requires Quiet(s, p, k) && Alone(Called(s, p, k), p, n, t)
    ensures SoloAt(s, p, k, n, m, t)
    decreases n
  {
    if n == 0 {
      m := 0;
    } else {
      var r :| Alone(Called(s, p, k), p, n - 1, r) && Goes(r, p, t);
      m := AloneIsSolo(s, p, k, n - 1, r);
      m := GoesOn(s, p, k, n - 1, m, r, t);
    }
  }

  predicate AtEnd(c: Pc) {
    c.WantBuf? || c.Panicked?
  }

  /** The buffer a position names, if any, is b. */
  predicate Names(c: Pc, b: nat) {
    (c.DropVictim? || c.DropHome? || c.WantBuf?) ==> c.b == b
  }

  predicate Searches(c: Pc) {
    c.Lookup? || c.Recycle? || c.SweepScan?
  }

  predicate InSweep(c: Pc) {
    c.SweepTest? || c.SweepPeek? || c.SweepWait?
  }

  /** Positions with one step only. */
  lemma SweepGo(s: State, p: Pid, k: Key, n: nat, m: nat, t: State) returns (a: Action)
    requires Quiet(s, p, k) && SoloAt(s, p, k, n, m, t) && InSweep(PcOf(t.pc, p))
    ensures DoGet(t, p, a).Some?
    ensures forall b: nat :: Names(PcOf(DoGet(t, p, a).value.pc, p), b)
  {
    var c := PcOf(t.pc, p);
    Lists.FindCountIs(Home(k), m);
    a := if c.SweepTest? then TestSweep
         else if c.SweepWait? then AcquireVictim
         else if t.lock[c.f].Some? then PeekLocked else PeekFree;
  }

  lemma PlainGo(s: State, p: Pid, k: Key, n: nat, m: nat, t: State) returns (a: Action)
    requires Quiet(s, p, k) && SoloAt(s, p, k, n, m, t) && !AtEnd(PcOf(t.pc, p)) && !Searches(PcOf(t.pc, p)) && !InSweep(PcOf(t.pc, p))
    ensures DoGet(t, p, a).Some?
    ensures forall b: nat :: Names(PcOf(t.pc, p), b) ==> Names(PcOf(DoGet(t, p, a).value.pc, p), b)
  {
    var c := PcOf(t.pc, p);
    a := if c.WantHome? then AcquireHome else if c.DropVictim? then ReleaseVictim else if c.DropHome? then ReleaseHome else Panic;
  }

  /** As long as it is not at its end p can step, and it may choose b if bget may return b. */
  lemma CanGo(s: State, p: Pid, k: Key, n: nat, m: nat, t: State, b: nat) returns (a: Action)
    requires Quiet(s, p, k) && SoloAt(s, p, k, n, m, t) && !AtEnd(PcOf(t.pc, p))
    ensures DoGet(t, p, a).Some?
    ensures Chosen(s, k, b) && Names(PcOf(t.pc, p), b) ==> Names(PcOf(DoGet(t, p, a).value.pc, p), b)
  {
    var c := PcOf(t.pc, p);
    if c.Lookup? {
      a := ChooseHit(s, p, k, t, b);
    } else if c.Recycle? {
      a := ChooseHome(s, p, k, t, b);
    } else if c.SweepScan? {
      Lists.FindCountIs(Home(k), m);
      a := ChooseVictim(s, p, k, m, t, b);
    } else if InSweep(c) {
      a := SweepGo(s, p, k, n, m, t);
    } else {
      a := PlainGo(s, p, k, n, m, t);
    }
  }

  lemma ChooseHit(s: State, p: Pid, k: Key, t: State, b: nat) returns (a: Action)
    requires Shape(t) && t.bufs == s.bufs && PcOf(t.pc, p) == Lookup(k)
    ensures DoGet(t, p, a).Some? && (Chosen(s, k, b) ==> Names(PcOf(DoGet(t, p, a).value.pc, p), b))
  {
    if NoHit(s, Home(k), k) {
      a := Miss;
    } else if Chosen(s, k, b) {
      a := Hit(b);
    } else {
      var c: nat :| c < |s.bufs| && s.bufs[c].bucket == Home(k) && s.bufs[c].key == k;
      a := Hit(c);
    }
  }

  lemma ChooseHome(s: State, p: Pid, k: Key, t: State, b: nat) returns (a: Action)
    requires Shape(t) && t.bufs == s.bufs && PcOf(t.pc, p) == Recycle(k) && NoHit(s, Home(k), k)
    ensures DoGet(t, p, a).Some? && (Chosen(s, k, b) ==> Names(PcOf(DoGet(t, p, a).value.pc, p), b))
  {
    if NoFree(s, Home(k)) {
      a := NoneAtHome;
    } else if Chosen(s, k, b) {
      a := TakeHome(b);
    } else {
      var c: nat :| c < |s.bufs| && s.bufs[c].bucket == Home(k) && s.bufs[c].refcnt == 0;
      a := TakeHome(c);
    }
  }

  /** The first bucket with a free buffer is one only. */
  lemma FirstIsOne(s: State, h: nat, m: nat, m': nat, b: nat)
    requires NothingIn(s, h, m) && !NoFree(s, Lists.Visits(h, m)) && FirstAt(s, h, m', b)
    ensures m == m'
  {
    assert !NoFree(s, Lists.Visits(h, m'));
  }

  lemma ChooseVictim(s: State, p: Pid, k: Key, m: nat, t: State, b: nat) returns (a: Action)
    requires Shape(t) && t.bufs == s.bufs && PcOf(t.pc, p) == SweepScan(k, Lists.Visits(Home(k), m)) && Lists.Visits(Home(k), m) < NBUCKETS
    requires NoHit(s, Home(k), k) && NoFree(s, Home(k)) && NothingIn(s, Home(k), m)
    ensures DoGet(t, p, a).Some? && (Chosen(s, k, b) ==> Names(PcOf(DoGet(t, p, a).value.pc, p), b))
  {
    var f := Lists.Visits(Home(k), m);
    if NoFree(s, f) {
      a := NoneAtVictim;
    } else if Chosen(s, k, b) {
      var m': nat :| FirstAt(s, Home(k), m', b);
      FirstIsOne(s, Home(k), m, m', b);
      a := Steal(b);
    } else {
      var c: nat :| c < |s.bufs| && s.bufs[c].bucket == f && s.bufs[c].refcnt == 0;
      a := Steal(c);
    }
  }

  /** bget alone may sweep for ever. */
  predicate Endless(s: State, k: Key) {
    Home(k) == 0 && NoHit(s, 0, k) && NoneFree(s)
  }

  /** Otherwise it takes at most 62 steps. */
  lemma FewSteps(s: State, p: Pid, k: Key, n: nat, m: nat, t: State)
    requires Quiet(s, p, k) && SoloAt(s, p, k, n, m, t) && !Endless(s, k)
    ensures n <= 62
  {
    if m > 12 && (PcOf(t.pc, p).SweepTest? || PcOf(t.pc, p).SweepPeek? || PcOf(t.pc, p).SweepWait? || PcOf(t.pc, p).SweepScan?) {
      AllSwept(s, Home(k), m);
    }
  }

  /** And gets to its end, with b if it may return b. */
  lemma {:induction false} GetsToEnd(s: State, p: Pid, k: Key, n: nat, t: State, b: nat) returns (n': nat, u: State)
    requires Quiet(s, p, k) && Alone(Called(s, p, k), p, n, t) && !Endless(s, k) && (Chosen(s, k, b) ==> Names(PcOf(t.pc, p), b))
    ensures Alone(Called(s, p, k), p, n', u) && AtEnd(PcOf(u.pc, p)) && (Chosen(s, k, b) ==> Names(PcOf(u.pc, p), b))
    decreases 62 - n
  {
    var m := AloneIsSolo(s, p, k, n, t);
    FewSteps(s, p, k, n, m, t);
    if AtEnd(PcOf(t.pc, p)) {
      n', u := n, t;
    } else {
      var a := CanGo(s, p, k, n, m, t, b);
      var r := DoGet(t, p, a).value;
      GoStep(t, p, a, r);
      OneMore(Called(s, p, k), p, n, t, r);
      var m' := AloneIsSolo(s, p, k, n + 1, r);
      FewSteps(s, p, k, n + 1, m', r);
      n', u := GetsToEnd(s, p, k, n + 1, r, b);
    }
  }

  /** What may be returned is cached or free. */
  lemma ChosenIsThere(s: State, k: Key, b: nat)
    requires Chosen(s, k, b)
    ensures !(NoHit(s, Home(k), k) && NoneFree(s))
  {
    if NoHit(s, Home(k), k) && NoFree(s, Home(k)) {
      var m: nat :| FirstAt(s, Home(k), m, b);
      assert Lists.Visits(Home(k), m) < NBUCKETS && !NoFree(s, Lists.Visits(Home(k), m));
    }
  }

  ghost predicate Returns(s: State, p: Pid, k: Key, n: nat, u: State, b: nat)
    requires Shape(s)
  {
    Alone(Called(s, p, k), p, n, u) && PcOf(u.pc, p) == WantBuf(k, b) && Took(s, p, k, u, b) && u.lock == s.lock && u.disk == s.disk && u.pins == s.pins
  }

  /** bget alone returns b in some way iff b is cached for k; or b is a free buffer of the home
      bucket and nothing is cached; or, with none at home either, b is a free buffer of the first
      bucket of the sweep that has one; and then it does to b what it should and to nothing else. */
  lemma GetsIff(s: State, p: Pid, k: Key, b: nat)
    requires Quiet(s, p, k)
    ensures (exists n: nat, u: State :: Returns(s, p, k, n, u, b)) <==> Chosen(s, k, b)
    ensures forall n: nat, u: State :: Alone(Called(s, p, k), p, n, u) && PcOf(u.pc, p).WantBuf? ==> Returns(s, p, k, n, u, PcOf(u.pc, p).b)
  {
    forall n: nat, u: State | Alone(Called(s, p, k), p, n, u) && PcOf(u.pc, p).WantBuf? ensures Returns(s, p, k, n, u, PcOf(u.pc, p).b) {
      var m := AloneIsSolo(s, p, k, n, u);
    }
    if Chosen(s, k, b) {
      ChosenIsThere(s, k, b);
      assert Alone(Called(s, p, k), p, 0, Called(s, p, k));
      var n, u := GetsToEnd(s, p, k, 0, Called(s, p, k), b);
      var m := AloneIsSolo(s, p, k, n, u);
      assert Returns(s, p, k, n, u, b);
    }
  }

  ghost predicate Panics(s: State, p: Pid, k: Key, n: nat, u: State)
    requires Shape(s)
  {
    Alone(Called(s, p, k), p, n, u) && PcOf(u.pc, p).Panicked? && Untouched(s, u) && u.lock == s.lock && u.disk == s.disk && u.pins == s.pins
  }

  /** It panics iff the block is not cached, nothing is free and the home bucket is not 0; nothing
      has changed then. */
  lemma PanicsIff(s: State, p: Pid, k: Key)
    requires Quiet(s, p, k)
    ensures (exists n: nat, u: State :: Panics(s, p, k, n, u)) <==> NoHit(s, Home(k), k) && NoneFree(s) && Home(k) != 0
  {
    if n: nat, u: State :| Panics(s, p, k, n, u) {
      var m := AloneIsSolo(s, p, k, n, u);
    }
    if NoHit(s, Home(k), k) && NoneFree(s) && Home(k) != 0 {
      if Chosen(s, k, 0) {
        ChosenIsThere(s, k, 0);
      }
      assert Alone(Called(s, p, k), p, 0, Called(s, p, k));
      var n, u := GetsToEnd(s, p, k, 0, Called(s, p, k), 0);
      var m := AloneIsSolo(s, p, k, n, u);
      if PcOf(u.pc, p).WantBuf? {
        ChosenIsThere(s, k, PcOf(u.pc, p).b);
      }
      assert Panics(s, p, k, n, u);
    }
  }

  ghost predicate Stops(s: State, p: Pid, k: Key, n: nat, u: State) {
    Alone(Called(s, p, k), p, n, u) && AtEnd(PcOf(u.pc, p))
  }

  /** It ends iff its home bucket is not 0, or the block is cached, or some buffer is free; and
      otherwise it can always go on, with nothing changed but that it holds its home lock. */
  lemma StopsIff(s: State, p: Pid, k: Key)
    requires Quiet(s, p, k)
    ensures (exists n: nat, u: State :: Stops(s, p, k, n, u)) <==> Home(k) != 0 || !NoHit(s, Home(k), k) || !NoneFree(s)
  {
    if n: nat, u: State :| Stops(s, p, k, n, u) {
      var m := AloneIsSolo(s, p, k, n, u);
      if PcOf(u.pc, p).WantBuf? {
        ChosenIsThere(s, k, PcOf(u.pc, p).b);
      }
    }
    if !Endless(s, k) {
      assert Alone(Called(s, p, k), p, 0, Called(s, p, k));
      var n, u := GetsToEnd(s, p, k, 0, Called(s, p, k), 0);
      assert Stops(s, p, k, n, u);
    }
  }

  /** Without an end there are runs of bget alone of every length. */
  lemma {:induction false} GoesOnForEver(s: State, p: Pid, k: Key, n: nat) returns (u: State)
    requires Quiet(s, p, k) && Endless(s, k)
    ensures Alone(Called(s, p, k), p, n, u) && Untouched(s, u) && u.disk == s.disk && u.pins == s.pins
    decreases n
  {
    if n == 0 {
      u := Called(s, p, k);
    } else {
      var t := GoesOnForEver(s, p, k, n - 1);
      var m := AloneIsSolo(s, p, k, n - 1, t);
      if AtEnd(PcOf(t.pc, p)) {
        StopsIff(s, p, k);
        assert Stops(s, p, k, n - 1, t);
      }
      var a := CanGo(s, p, k, n - 1, m, t, 0);
      u := DoGet(t, p, a).value;
      GoStep(t, p, a, u);
      OneMore(Called(s, p, k), p, n - 1, t, u);
      var m' := AloneIsSolo(s, p, k, n, u);
      if PcOf(u.pc, p).DropVictim? || PcOf(u.pc, p).DropHome? || PcOf(u.pc, p).WantBuf? {
        ChosenIsThere(s, k, PcOf(u.pc, p).b);
      }
    }
  }

  // ---------------------------------------------------------------------------------------
  // The other calls alone
  // ---------------------------------------------------------------------------------------

  /** p does a, which leads from s to t. */
  ghost predicate Does(s: State, p: Pid, a: Action, t: State) {
    forall j: nat :: StepKey(j) ==> Shape(s) && Do(s, p, a) == Option.Some(t)
  }

  /** p does three actions, or four, one after the other, and nobody else does any. */
  ghost predicate Three(s: State, p: Pid, a: Action, b: Action, c: Action, t: State) {
    exists s1: State, s2: State :: Does(s, p, a, s1) && Does(s1, p, b, s2) && Does(s2, p, c, t)
  }

  ghost predicate Four(s: State, p: Pid, a: Action, b: Action, c: Action, d: Action, t: State) {
    exists s3: State :: Three(s, p, a, b, c, s3) && Does(s3, p, d, t)
  }

  lemma FourIs(s: State, p: Pid, a: Action, s1: State, b: Action, s2: State, c: Action, s3: State, d: Action, t: State)
    requires Does(s, p, a, s1) && Does(s1, p, b, s2) && Does(s2, p, c, s3) && Does(s3, p, d, t)
    ensures Four(s, p, a, b, c, d, t)
  {
    assert Three(s, p, a, b, c, s3);
  }

  lemma DoesUse(s: State, p: Pid, a: Action, t: State)
    requires Shape(s) && (a.AcquireSleep? || a.Return? || a.ReadDisk? || a.MarkValid?) && DoUse(s, p, a) == Option.Some(t)
    ensures Does(s, p, a, t)
  {
  }

  lemma DoesRelease(s: State, p: Pid, a: Action, t: State)
    requires Shape(s) && DoRelease(s, p, a) == Option.Some(t)
    ensures Does(s, p, a, t)
  {
  }

  /** p holds buffer b and no bucket is locked. */
  ghost predicate Holds(s: State, p: Pid, b: nat) {
    Shape(s) && NoLocks(s) && PcOf(s.pc, p).Idle? && b < |s.bufs| && s.bufs[b].owner == Option.Some(p)
  }

  lemma SameAgain(s: State, p: Pid, h: nat, c1: Pc, c2: Pc, c3: Pc)
    requires Shape(s) && NoLocks(s) && h < NBUCKETS
    ensures s.lock[h := Option.Some(p)][h := Option.None] == s.lock
    ensures s.pc[p := c1][p := c2] == s.pc[p := c2] && s.pc[p := c2][p := c3] == s.pc[p := c3] && s.pc[p := c3][p := Idle] == s.pc[p := Idle]
  {
  }

  /** A bucket lock is taken for a release, a pin or an unpin. */
  lemma DoesLock(s: State, p: Pid, a: Action, b: nat, h: nat, c: Pc)
    requires Shape(s) && h < NBUCKETS && s.lock[h].None?
    requires match a
             case AcquireForRelease => PcOf(s.pc, p) == RelWant(b, h) && c == RelHold(b, h)
             case AcquireForPin => PcOf(s.pc, p) == PinWant(b, h) && c == PinHold(b, h)
             case AcquireForUnpin => PcOf(s.pc, p) == UnpinWant(b, h) && c == UnpinHold(b, h)
             case _ => false
    ensures Does(s, p, a, s.(pc := s.pc[p := c], lock := s.lock[h := Option.Some(p)]))
  {
    DoesRelease(s, p, a, s.(pc := s.pc[p := c], lock := s.lock[h := Option.Some(p)]));
  }

  /** And given back. */
  lemma DoesUnlock(s: State, p: Pid, h: nat)
    requires Shape(s) && h < NBUCKETS && PcOf(s.pc, p) == Drop(h)
    ensures Does(s, p, ReleaseLock, s.(pc := s.pc[p := Idle], lock := s.lock[h := Option.None]))
  {
    DoesRelease(s, p, ReleaseLock, s.(pc := s.pc[p := Idle], lock := s.lock[h := Option.None]));
  }

  /** The count of buffer b, and its pins and references, after the work of each call. */
  lemma DoesStart(s: State, p: Pid, a: Action, b: nat, t: State)
    requires Shape(s) && PcOf(s.pc, p).Idle? && b < |s.bufs|
    requires match a
             case StartRelease(x) =>
               && x == b && s.bufs[b].owner == Option.Some(p)
               && t == s.(pc := s.pc[p := RelWant(b, Home(s.bufs[b].key))], bufs := s.bufs[b := s.bufs[b].(owner := Option.None)],
                          sloppy := s.sloppy || s.bufs[b].dirty)
             case StartPin(x) => x == b && s.bufs[b].owner == Option.Some(p) && t == s.(pc := s.pc[p := PinWant(b, Home(s.bufs[b].key))])
             case StartUnpin(x) =>
               && x == b && s.pins[b] > 0
               && t == s.(pc := s.pc[p := UnpinWant(b, Home(s.bufs[b].key))], pins := s.pins[b := s.pins[b] - 1],
                          refs := s.refs[b := s.refs[b] + multiset{p}])
             case _ => false
    ensures Does(s, p, a, t)
  {
    DoesRelease(s, p, a, t);
  }

  lemma DoesCount(s: State, p: Pid, a: Action, b: nat, h: nat, t: State)
    requires Shape(s) && b < |s.bufs|
    requires var f := s.bufs[b];
             match a
             case DecRef =>
               && PcOf(s.pc, p) == RelHold(b, h) && f.refcnt > 0
               && t == s.(pc := s.pc[p := Drop(h)], refs := s.refs[b := s.refs[b] - multiset{p}],
                          bufs := s.bufs[b := f.(refcnt := f.refcnt - 1, bucket := if f.refcnt == 1 then h else f.bucket)])
             case IncRef =>
               && PcOf(s.pc, p) == PinHold(b, h)
               && t == s.(pc := s.pc[p := Drop(h)], pins := s.pins[b := s.pins[b] + 1], bufs := s.bufs[b := f.(refcnt := f.refcnt + 1)])
             case DecPin =>
               && PcOf(s.pc, p) == UnpinHold(b, h) && f.refcnt > 0
               && t == s.(pc := s.pc[p := Drop(h)], refs := s.refs[b := s.refs[b] - multiset{p}], bufs := s.bufs[b := f.(refcnt := f.refcnt - 1)])
             case _ => false
    ensures Does(s, p, a, t)
  {
    DoesRelease(s, p, a, t);
  }

  /** The two steps of brelse on the buffer. */
  function Unheld(f: Buf): Buf {
    f.(owner := Option.None)
  }

  function Dropped(f: Buf): Buf
    requires f.refcnt > 0
  {
    f.(refcnt := f.refcnt - 1, bucket := if f.refcnt == 1 then Home(f.key) else f.bucket)
  }

  /** brelse: p holds b no more and its reference is gone; without references b is on the list of
      its home bucket. */
  lemma ReleaseAlone(s: State, p: Pid, b: nat)
    requires Holds(s, p, b) && s.bufs[b].refcnt > 0
    ensures var f := s.bufs[b];
            Four(s, p, StartRelease(b), AcquireForRelease, DecRef, ReleaseLock,
                 s.(pc := s.pc[p := Idle], sloppy := s.sloppy || f.dirty, refs := s.refs[b := s.refs[b] - multiset{p}], bufs := s.bufs[b := Dropped(Unheld(f))]))
  {
    var f, h := s.bufs[b], Home(s.bufs[b].key);
    var f1, f3 := Unheld(f), Dropped(Unheld(f));
    SameAgain(s, p, h, RelWant(b, h), RelHold(b, h), Drop(h));
    var s1 := s.(pc := s.pc[p := RelWant(b, h)], bufs := s.bufs[b := f1], sloppy := s.sloppy || f.dirty);
    var s2 := s1.(pc := s.pc[p := RelHold(b, h)], lock := s.lock[h := Option.Some(p)]);
    var s3 := s2.(pc := s.pc[p := Drop(h)], bufs := s.bufs[b := f3], refs := s.refs[b := s.refs[b] - multiset{p}]);
    assert s.bufs[b := f1][b := f3] == s.bufs[b := f3];
    assert Does(s, p, StartRelease(b), s1) by { DoesStart(s, p, StartRelease(b), b, s1); }
    assert Does(s1, p, AcquireForRelease, s2) by { DoesLock(s1, p, AcquireForRelease, b, h, RelHold(b, h)); }
    assert Does(s2, p, DecRef, s3) by { DoesCount(s2, p, DecRef, b, h, s3); }
    DoesUnlock(s3, p, h);
    FourIs(s, p, StartRelease(b), s1, AcquireForRelease, s2, DecRef, s3, ReleaseLock, s3.(pc := s.pc[p := Idle], lock := s.lock));
  }

  /** bpin: one reference and one pin more. */
  lemma PinAlone(s: State, p: Pid, b: nat)
    requires Holds(s, p, b)
    ensures Four(s, p, StartPin(b), AcquireForPin, IncRef, ReleaseLock,
                 s.(pc := s.pc[p := Idle], pins := s.pins[b := s.pins[b] + 1], bufs := s.bufs[b := s.bufs[b].(refcnt := s.bufs[b].refcnt + 1)]))
  {
    var h := Home(s.bufs[b].key);
    SameAgain(s, p, h, PinWant(b, h), PinHold(b, h), Drop(h));
    var s1 := s.(pc := s.pc[p := PinWant(b, h)]);
    var s2 := s.(pc := s.pc[p := PinHold(b, h)], lock := s.lock[h := Option.Some(p)]);
    var s3 := s2.(pc := s.pc[p := Drop(h)], pins := s.pins[b := s.pins[b] + 1], bufs := s.bufs[b := s.bufs[b].(refcnt := s.bufs[b].refcnt + 1)]);
    DoesStart(s, p, StartPin(b), b, s1);
    DoesLock(s1, p, AcquireForPin, b, h, PinHold(b, h));
    DoesCount(s2, p, IncRef, b, h, s3);
    DoesUnlock(s3, p, h);
    FourIs(s, p, StartPin(b), s1, AcquireForPin, s2, IncRef, s3, ReleaseLock, s3.(pc := s.pc[p := Idle], lock := s.lock));
  }

  /** bunpin: one reference and one pin less. */
  lemma UnpinAlone(s: State, p: Pid, b: nat)
    requires Shape(s) && NoLocks(s) && PcOf(s.pc, p).Idle? && b < |s.bufs| && s.pins[b] > 0 && s.bufs[b].refcnt > 0
    ensures Four(s, p, StartUnpin(b), AcquireForUnpin, DecPin, ReleaseLock,
                 s.(pc := s.pc[p := Idle], pins := s.pins[b := s.pins[b] - 1], bufs := s.bufs[b := s.bufs[b].(refcnt := s.bufs[b].refcnt - 1)]))
  {
    var h := Home(s.bufs[b].key);
    SameAgain(s, p, h, UnpinWant(b, h), UnpinHold(b, h), Drop(h));
    var s1 := s.(pc := s.pc[p := UnpinWant(b, h)], pins := s.pins[b := s.pins[b] - 1], refs := s.refs[b := s.refs[b] + multiset{p}]);
    var s2 := s1.(pc := s.pc[p := UnpinHold(b, h)], lock := s.lock[h := Option.Some(p)]);
    var s3 := s2.(pc := s.pc[p := Drop(h)], refs := s.refs, bufs := s.bufs[b := s.bufs[b].(refcnt := s.bufs[b].refcnt - 1)]);
    assert s1.refs[b := s1.refs[b] - multiset{p}] == s.refs by {
      assert s.refs[b] + multiset{p} - multiset{p} == s.refs[b];
    }
    DoesStart(s, p, StartUnpin(b), b, s1);
    DoesLock(s1, p, AcquireForUnpin, b, h, UnpinHold(b, h));
    DoesCount(s2, p, DecPin, b, h, s3);
    DoesUnlock(s3, p, h);
    FourIs(s, p, StartUnpin(b), s1, AcquireForUnpin, s2, DecPin, s3, ReleaseLock, s3.(pc := s.pc[p := Idle], lock := s.lock));
  }

  /** bread from where bget has chosen b: p holds b, which is valid, with the data it had if it was
      valid before and else with those of the disk. */
  lemma ReadValid(s: State, p: Pid, k: Key, b: nat)
    requires Shape(s) && PcOf(s.pc, p) == WantBuf(k, b) && b < |s.bufs| && s.bufs[b].owner.None? && s.bufs[b].valid
    ensures exists r :: Does(s, p, AcquireSleep, r) &&
              Does(r, p, Return, s.(pc := s.pc[p := Idle], bufs := s.bufs[b := s.bufs[b].(owner := Option.Some(p))]))
  {
    var f1 := s.bufs[b].(owner := Option.Some(p));
    var s1 := s.(pc := s.pc[p := CheckValid(k, b)], bufs := s.bufs[b := f1]);
    var s2 := s.(pc := s.pc[p := Idle], bufs := s.bufs[b := f1]);
    assert s1.pc[p := Idle] == s2.pc;
    DoesUse(s, p, AcquireSleep, s1);
    DoesUse(s1, p, Return, s2);
  }

  lemma ReadInvalid(s: State, p: Pid, k: Key, b: nat)
    requires Shape(s) && PcOf(s.pc, p) == WantBuf(k, b) && b < |s.bufs| && s.bufs[b].owner.None? && !s.bufs[b].valid
    ensures var f := s.bufs[b].(owner := Option.Some(p), valid := true, data := OnDisk(s.disk, s.bufs[b].key));
            Three(s, p, AcquireSleep, ReadDisk, MarkValid, s.(pc := s.pc[p := Idle], bufs := s.bufs[b := f]))
  {
    var f1 := s.bufs[b].(owner := Option.Some(p));
    var f2 := f1.(data := OnDisk(s.disk, f1.key));
    var f3 := f2.(valid := true);
    var s1 := s.(pc := s.pc[p := CheckValid(k, b)], bufs := s.bufs[b := f1]);
    var s2 := s.(pc := s.pc[p := SetValid(k, b)], bufs := s.bufs[b := f2]);
    var s3 := s.(pc := s.pc[p := Idle], bufs := s.bufs[b := f3]);
    assert s1.pc[p := SetValid(k, b)] == s2.pc && s2.pc[p := Idle] == s3.pc;
    assert s1.bufs[b := f2] == s2.bufs && s2.bufs[b := f3] == s3.bufs;
    assert Does(s, p, AcquireSleep, s1) by { DoesUse(s, p, AcquireSleep, s1); }
    assert Does(s1, p, ReadDisk, s2) by { DoesUse(s1, p, ReadDisk, s2); }
    assert Does(s2, p, MarkValid, s3) by { DoesUse(s2, p, MarkValid, s3); }
  }

  // ---------------------------------------------------------------------------------------
  // The lists agree
  // ---------------------------------------------------------------------------------------

  predicate Alike(x: Buf, y: Lists.Buf, home: nat) {
    x.key == Key(y.dev, y.blockno) && x.valid == y.valid && x.refcnt == y.refcnt && x.bucket == home
  }

  /** The same buffers on the same buckets; the lists also have an order. */
  ghost predicate Same(s: State, net: Lists.Net, bufs: seq<Lists.Buf>) {
    && Lists.Sound(net, {}) && |s.bufs| == |bufs| == net.nbuf
    && forall b: nat :: b < |bufs| ==> Alike(s.bufs[b], bufs[b], net.home[b])
  }

  /** A buffer is on the list of its bucket and on no other. */
  lemma OnList(net: Lists.Net, h: nat, b: nat)
    requires Lists.Sound(net, {}) && h < NBUCKETS && b < net.nbuf
    ensures b in net.lists[h] <==> net.home[b] == h
  {
    if b in net.lists[h] {
      Lists.OnHome(net, h, b);
    }
  }

  /** The lists name buffers only. */
  lemma ListedIsBuf(net: Lists.Net, h: nat, i: nat)
    requires Lists.Sound(net, {}) && h < NBUCKETS && i < |net.lists[h]|
    ensures net.lists[h][i] < net.nbuf && net.home[net.lists[h][i]] == h
  {
    assert Lists.ListOk(net, h) && Lists.Member(net, h, i);
  }

  lemma FreeAgrees(s: State, net: Lists.Net, bufs: seq<Lists.Buf>, h: nat)
    requires Same(s, net, bufs) && h < NBUCKETS
    ensures Lists.SomeFree(bufs, net.lists[h]) <==> !NoFree(s, h)
  {
    var l := net.lists[h];
    if i: nat :| i < |l| && l[i] < |bufs| && bufs[l[i]].refcnt == 0 {
      ListedIsBuf(net, h, i);
      assert Alike(s.bufs[l[i]], bufs[l[i]], net.home[l[i]]);
    }
    if b: nat :| b < |s.bufs| && s.bufs[b].bucket == h && s.bufs[b].refcnt == 0 {
      assert Alike(s.bufs[b], bufs[b], net.home[b]);
      OnList(net, h, b);
    }
  }

  lemma HitAgrees(s: State, net: Lists.Net, bufs: seq<Lists.Buf>, h: nat, k: Key)
    requires Same(s, net, bufs) && h < NBUCKETS
    ensures Lists.Cached(bufs, net.lists[h], k.dev, k.blockno) <==> !NoHit(s, h, k)
  {
    var l := net.lists[h];
    if i: nat :| i < |l| && l[i] < |bufs| && bufs[l[i]].dev == k.dev && bufs[l[i]].blockno == k.blockno {
      ListedIsBuf(net, h, i);
      assert Alike(s.bufs[l[i]], bufs[l[i]], net.home[l[i]]);
    }
    if b: nat :| b < |s.bufs| && s.bufs[b].bucket == h && s.bufs[b].key == k {
      assert Alike(s.bufs[b], bufs[b], net.home[b]);
      OnList(net, h, b);
    }
  }

  lemma NoneAgrees(s: State, net: Lists.Net, bufs: seq<Lists.Buf>)
    requires Same(s, net, bufs)
    ensures Lists.NoneFree(bufs, net.lists) <==> NoneFree(s)
  {
    forall h: nat | h < NBUCKETS ensures Lists.SomeFree(bufs, net.lists[h]) <==> !NoFree(s, h) {
      FreeAgrees(s, net, bufs, h);
    }
  }

  /** The steps of one process alone end iff the loop over the lists does. */
  lemma EndsAgree(s: State, p: Pid, k: Key, net: Lists.Net, bufs: seq<Lists.Buf>)
    requires Quiet(s, p, k) && Same(s, net, bufs)
    ensures (exists n: nat, u: State :: Stops(s, p, k, n, u)) <==> exists n: nat :: Lists.OverWithin(bufs, net.lists, k.dev, k.blockno, n)
  {
    StopsIff(s, p, k);
    Lists.BgetEndsIff(bufs, net.lists, k.dev, k.blockno);
    HitAgrees(s, net, bufs, Home(k), k);
    NoneAgrees(s, net, bufs);
  }

  /** The buffer that the lists give may be returned. */
  lemma GotIsChosen(s: State, k: Key, net: Lists.Net, bufs: seq<Lists.Buf>, net': Lists.Net, bufs': seq<Lists.Buf>, b: nat)
    requires Same(s, net, bufs) && Lists.Got(net, bufs, net', bufs', k.dev, k.blockno, b)
    ensures Chosen(s, k, b) && b < |s.bufs|
  {
    var h := Home(k);
    HitAgrees(s, net, bufs, h, k);
    FreeAgrees(s, net, bufs, h);
    assert Alike(s.bufs[b], bufs[b], net.home[b]);
    OnList(net, h, b);
    if NoHit(s, h, k) && NoFree(s, h) {
      var m: nat :| Lists.StolenFrom(net, bufs, h, b, m);
      Lists.FindCountIs(h, m);
      OnList(net, Lists.Visits(h, m), b);
      forall u: nat | u < m ensures NoFree(s, Lists.Visits(h, u)) {
        Lists.FindCountIs(h, u);
        FreeAgrees(s, net, bufs, Lists.Visits(h, u));
      }
      assert FirstAt(s, h, m, b);
    }
  }

  /** Only b has moved. */
  lemma HomesAfter(net: Lists.Net, net': Lists.Net, bufs: seq<Lists.Buf>, bufs': seq<Lists.Buf>, k: Key, b: nat, c: nat)
    requires Lists.Sound(net, {}) && Lists.Sound(net', {}) && net'.nbuf == net.nbuf && |bufs| == net.nbuf
    requires Lists.Got(net, bufs, net', bufs', k.dev, k.blockno, b) && c < net.nbuf && b < net.nbuf
    ensures net'.home[c] == if c == b then Home(k) else net.home[c]
  {
    var h := Home(k);
    OnList(net, h, b);
    OnList(net', h, b);
    if c != b {
      OnList(net, net'.home[c], c);
      OnList(net', net'.home[c], c);
    }
  }

  /** Every outcome of bget over the lists is reached by steps of the process alone, with the same
      buffer and the same contents. */
  lemma GotIsReached(s: State, p: Pid, k: Key, net: Lists.Net, bufs: seq<Lists.Buf>, net': Lists.Net, bufs': seq<Lists.Buf>, b: nat)
    returns (n: nat, u: State)
    requires Quiet(s, p, k) && Same(s, net, bufs) && Lists.Sound(net', {}) && net'.nbuf == net.nbuf
    requires Lists.Got(net, bufs, net', bufs', k.dev, k.blockno, b)
    ensures Returns(s, p, k, n, u, b) && Same(u, net', bufs')
  {
    GotIsChosen(s, k, net, bufs, net', bufs', b);
    GetsIff(s, p, k, b);
    n, u :| Returns(s, p, k, n, u, b);
    HitAgrees(s, net, bufs, Home(k), k);
    forall c: nat | c < |bufs'| ensures Alike(u.bufs[c], bufs'[c], net'.home[c]) {
      assert Alike(s.bufs[c], bufs[c], net.home[c]);
      HomesAfter(net, net', bufs, bufs', k, b, c);
    }
  }
}

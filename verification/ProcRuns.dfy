/**
 Whole calls of the process table: what scheduler, fork, sleep, wakeup, wait, exit, yield and kill
 do to it while one CPU moves and nobody else holds a process lock, for every table; and, put
 together, a run from boot through all of them.
 */
module ProcRuns {
  import opened Common
  import opened ProcSteps

  // ---------------------------------------------------------------------------------------
  // Steps of one CPU
  // ---------------------------------------------------------------------------------------

  /** Always true: under it a step is a mere name to the verifier until it is looked into. */
  predicate StepKey(k: nat) {
    true
  }

  /** CPU c's next step, with choice a, leads from s to t. */
  ghost predicate Goes(s: State, c: nat, a: Action, t: State) {
    forall k: nat :: StepKey(k) ==> Shape(s) && Do(s, c, a) == Option.Some(t)
  }

  /** Steps of CPU c alone, all with choice a, lead from s to t. */
  ghost predicate Alone(s: State, c: nat, a: Action, n: nat, t: State)
    decreases n
  {
    if n == 0 then s == t else exists r :: Goes(s, c, a, r) && Alone(r, c, a, n - 1, t)
  }

  lemma GoSched(s: State, c: nat, a: Action, t: State)
    requires Shape(s) && c < |s.cpus| && !s.cpus[c].mode.Thread? && DoSched(s, c) == Option.Some(t)
    ensures Goes(s, c, a, t)
  {
  }

  lemma GoLeave(s: State, c: nat, a: Action, p: nat, pc: Pc)
    requires Shape(s) && c < |s.cpus| && s.cpus[c].mode == Thread(p, pc) && Leaving(pc)
    ensures Goes(s, c, a, At(s, c, Back(p)))
  {
  }

  lemma GoThread(s: State, c: nat, a: Action, p: nat, pc: Pc, t: State)
    requires Shape(s) && c < |s.cpus| && s.cpus[c].mode == Thread(p, pc) && !Leaving(pc) && p < |s.procs|
    requires DoThread(s, c, p, pc, a) == Option.Some(t)
    ensures Goes(s, c, a, t)
  {
  }

  lemma OneFirst(s: State, c: nat, a: Action, r: State, n: nat, t: State)
    requires Goes(s, c, a, r) && Alone(r, c, a, n, t)
    ensures Alone(s, c, a, n + 1, t)
  {
  }

  lemma {:induction false} Then(s: State, c: nat, a: Action, n: nat, t: State, m: nat, u: State)
    requires Alone(s, c, a, n, t) && Alone(t, c, a, m, u)
    ensures Alone(s, c, a, n + m, u)
    decreases n
  {
    if n > 0 {
      var r :| Goes(s, c, a, r) && Alone(r, c, a, n - 1, t);
      Then(r, c, a, n - 1, t, m, u);
      OneFirst(s, c, a, r, n - 1 + m, u);
    }
  }

  /** CPU c alone, with choice a, gets from s to t. */
  ghost predicate Leads(s: State, c: nat, a: Action, t: State) {
    exists n: nat :: Alone(s, c, a, n, t)
  }

  lemma LeadsOn(s: State, c: nat, a: Action, t: State, u: State)
    requires Leads(s, c, a, t) && Leads(t, c, a, u)
    ensures Leads(s, c, a, u)
  {
    var n: nat :| Alone(s, c, a, n, t);
    var m: nat :| Alone(t, c, a, m, u);
    Then(s, c, a, n, t, m, u);
  }

  lemma One(s: State, c: nat, a: Action, t: State)
    requires Goes(s, c, a, t)
    ensures Alone(s, c, a, 1, t) && Leads(s, c, a, t)
  {
    OneFirst(s, c, a, t, 0, t);
  }

  lemma Three(s: State, c: nat, a: Action, s1: State, s2: State, s3: State)
    requires Goes(s, c, a, s1) && Goes(s1, c, a, s2) && Goes(s2, c, a, s3)
    ensures Alone(s, c, a, 3, s3) && Leads(s, c, a, s3)
  {
    One(s, c, a, s1);
    One(s1, c, a, s2);
    One(s2, c, a, s3);
    Then(s, c, a, 1, s1, 1, s2);
    Then(s, c, a, 2, s2, 1, s3);
  }

  /** Nobody holds a process lock. */
  ghost predicate Unlocked(s: State) {
    forall j: nat :: j < |s.procs| ==> s.procs[j].lock.None?
  }

  /** CPU c is at m, and slot j is q. */
  function Put(s: State, c: nat, m: Mode, j: nat, q: Proc): State
    requires c < |s.cpus| && j < |s.procs|
  {
    At(s, c, m).(procs := s.procs[j := q])
  }

  lemma PutPut(s: State, c: nat, m: Mode, m': Mode, j: nat, q: Proc, q': Proc)
    requires c < |s.cpus| && j < |s.procs|
    ensures Put(Put(s, c, m, j, q), c, m', j, q') == Put(s, c, m', j, q')
    ensures At(Put(s, c, m, j, q), c, m') == Put(s, c, m', j, q)
    ensures Put(At(s, c, m), c, m', j, q) == Put(s, c, m', j, q)
    ensures q == s.procs[j] ==> Put(s, c, m, j, q) == At(s, c, m)
  {
    var t := s.cpus[c].(mode := m);
    assert s.cpus[c := t][c := t.(mode := m')] == s.cpus[c := s.cpus[c].(mode := m')];
    assert s.procs[j := q][j := q'] == s.procs[j := q'];
    if q == s.procs[j] {
      assert s.procs[j := q] == s.procs;
    }
  }

  /** A step of p's thread that moves on to m' and sets slot j to q'. */
  lemma PutGoes(s: State, c: nat, a: Action, p: nat, pc: Pc, j: nat, q: Proc, m': Mode, q': Proc)
    requires Shape(s) && c < |s.cpus| && p < |s.procs| && j < |s.procs| && !Leaving(pc)
    requires var t := Put(s, c, Thread(p, pc), j, q);
             var r := DoThread(t, c, p, pc, a);
             r == Option.Some(Put(t, c, m', j, q')) || (q' == q && r == Option.Some(At(t, c, m')))
    ensures Goes(Put(s, c, Thread(p, pc), j, q), c, a, Put(s, c, m', j, q'))
  {
    PutPut(s, c, Thread(p, pc), m', j, q, q');
    GoThread(Put(s, c, Thread(p, pc), j, q), c, a, p, pc, Put(s, c, m', j, q'));
  }

  lemma PutIt(s: State, c: nat, j: nat)
    requires c < |s.cpus| && j < |s.procs|
    ensures Put(s, c, s.cpus[c].mode, j, s.procs[j]) == s
  {
    assert s.cpus[c := s.cpus[c]] == s.cpus && s.procs[j := s.procs[j]] == s.procs;
  }

  // ---------------------------------------------------------------------------------------
  // The scheduler
  // ---------------------------------------------------------------------------------------

  /** A CPU that holds the lock of a RUNNABLE slot is, three steps later, in that slot's thread at
      the position where it left, with the slot RUNNING and its kernel page table loaded. */
  lemma HaveRuns(s: State, c: nat, a: Action, j: nat) returns (t: State)
    requires Shape(s) && c < |s.cpus| && s.cpus[c].mode == Have(j) && j < |s.procs| && s.procs[j].state == RUNNABLE
    ensures Alone(s, c, a, 3, t) && Leads(s, c, a, t)
    ensures |t.cpus| == |s.cpus| && t.cpus[c].mode == Thread(j, Resume(s.procs[j].cont)) && t.cpus[c].satp == Option.Some(j)
    ensures |t.procs| == |s.procs| && t.procs[j] == s.procs[j].(state := RUNNING)
    ensures forall i: nat :: i < |s.procs| && i != j ==> t.procs[i] == s.procs[i]
    ensures forall d: nat :: d < |s.cpus| && d != c ==> t.cpus[d] == s.cpus[d]
    ensures t.xlock == s.xlock
  {
    var s1 := Put(s, c, Load(j), j, s.procs[j].(state := RUNNING));
    var s2 := s1.(cpus := s1.cpus[c := Cpu(Loaded(j), Option.Some(j))]);
    t := At(s2, c, Thread(j, Resume(s.procs[j].cont)));
    GoSched(s, c, a, s1);
    GoSched(s1, c, a, s2);
    GoSched(s2, c, a, t);
    Three(s, c, a, s1, s2, t);
  }

  /** In the thread of p at pc, with its table loaded. */
  function Inside(s: State, c: nat, p: nat, pc: Pc, q: Proc): State
    requires c < |s.cpus| && p < |s.procs|
  {
    s.(procs := s.procs[p := q], cpus := s.cpus[c := Cpu(Thread(p, pc), Option.Some(p))])
  }

  /** A slot that is not RUNNABLE is passed. */
  lemma Passes(s: State, c: nat, a: Action, j: nat)
    requires Shape(s) && c < |s.cpus| && s.cpus[c].mode == Scan(j) && j < |s.procs| && s.procs[j].lock.None? && !s.procs[j].state.RUNNABLE?
    ensures Leads(s, c, a, At(s, c, Scan(NextSlot(s, j))))
  {
    var q := s.procs[j].(lock := Option.Some(c));
    var s1 := Put(s, c, Have(j), j, q);
    var s2 := At(s1, c, Dropping(j));
    var s3 := At(s, c, Scan(NextSlot(s, j)));
    PutPut(s, c, Have(j), Dropping(j), j, q, q);
    PutPut(s, c, Dropping(j), Scan(NextSlot(s, j)), j, q, s.procs[j]);
    PutPut(s, c, Scan(NextSlot(s, j)), Scan(NextSlot(s, j)), j, s.procs[j], s.procs[j]);
    GoSched(s, c, a, s1);
    GoSched(s1, c, a, s2);
    GoSched(s2, c, a, s3);
    Three(s, c, a, s1, s2, s3);
  }

  /** A RUNNABLE slot is switched to. */
  lemma Picks(s: State, c: nat, a: Action, j: nat)
    requires Shape(s) && c < |s.cpus| && s.cpus[c].mode == Scan(j) && j < |s.procs| && s.procs[j].lock.None? && s.procs[j].state.RUNNABLE?
    ensures Leads(s, c, a, Inside(s, c, j, Resume(s.procs[j].cont), s.procs[j].(lock := Option.Some(c), state := RUNNING)))
  {
    var q := s.procs[j].(lock := Option.Some(c));
    var s1 := Put(s, c, Have(j), j, q);
    GoSched(s, c, a, s1);
    One(s, c, a, s1);
    var t := HaveRuns(s1, c, a, j);
    LeadsOn(s, c, a, s1, t);
    var u := Inside(s, c, j, Resume(s.procs[j].cont), s.procs[j].(lock := Option.Some(c), state := RUNNING));
    assert t.procs == u.procs;
    assert t.cpus == u.cpus;
  }

  /** The slot e places after j in the scheduler's round over n slots. */
  function Around(n: nat, j: nat, e: nat): nat {
    if j + e < n then j + e else j + e - n
  }

  /** The scheduler alone runs the first RUNNABLE slot of its round, from the slot it has come to. */
  lemma {:induction false} PicksFirst(s: State, c: nat, a: Action, j: nat, d: nat)
    requires Shape(s) && c < |s.cpus| && s.cpus[c].mode == Scan(j) && j < |s.procs| && d < |s.procs| && Unlocked(s)
    requires forall e: nat :: e < d ==> !s.procs[Around(|s.procs|, j, e)].state.RUNNABLE?
    requires s.procs[Around(|s.procs|, j, d)].state.RUNNABLE?
    ensures var i := Around(|s.procs|, j, d);
            Leads(s, c, a, Inside(s, c, i, Resume(s.procs[i].cont), s.procs[i].(lock := Option.Some(c), state := RUNNING)))
    decreases d
  {
    if d == 0 {
      Picks(s, c, a, j);
    } else {
      var n, k := |s.procs|, NextSlot(s, j);
      assert Around(n, j, 0) == j;
      Passes(s, c, a, j);
      var t := At(s, c, Scan(k));
      forall e: nat | e < d - 1 ensures !t.procs[Around(n, k, e)].state.RUNNABLE? {
        assert Around(n, k, e) == Around(n, j, e + 1);
      }
      assert Around(n, k, d - 1) == Around(n, j, d);
      PicksFirst(t, c, a, k, d - 1);
      var i := Around(n, j, d);
      LeadsOn(s, c, a, t, Inside(t, c, i, Resume(s.procs[i].cont), s.procs[i].(lock := Option.Some(c), state := RUNNING)));
      assert t.cpus[c := Cpu(Thread(i, Resume(s.procs[i].cont)), Option.Some(i))] == s.cpus[c := Cpu(Thread(i, Resume(s.procs[i].cont)), Option.Some(i))];
    }
  }

  // ---------------------------------------------------------------------------------------
  // fork
  // ---------------------------------------------------------------------------------------

  /** Memory suffices and user copies work. */
  const YES: Action := Choose(true)
  const NO: Action := Choose(false)

  /** A slot in use is passed. */
  lemma ForkPasses(s: State, c: nat, p: nat, j: nat)
    requires Shape(s) && c < |s.cpus| && p < |s.procs| && s.cpus[c].mode == Thread(p, InFork(j, FLock))
    requires j < |s.procs| && s.procs[j].lock.None? && !s.procs[j].state.UNUSED?
    ensures Leads(s, c, YES, At(s, c, Thread(p, InFork(j + 1, FLock))))
  {
    var m1, m2, m3 := Thread(p, InFork(j, FTest)), Thread(p, InFork(j, FNext)), Thread(p, InFork(j + 1, FLock));
    var q, q' := s.procs[j], s.procs[j].(lock := Option.Some(c));
    PutIt(s, c, j);
    PutGoes(s, c, YES, p, InFork(j, FLock), j, q, m1, q');
    PutGoes(s, c, YES, p, InFork(j, FTest), j, q', m2, q');
    PutGoes(s, c, YES, p, InFork(j, FNext), j, q', m3, q);
    PutPut(s, c, m3, m3, j, q, q);
    Three(s, c, YES, Put(s, c, m1, j, q'), Put(s, c, m2, j, q'), Put(s, c, m3, j, q));
  }

  /** The child that fork makes of an unused slot. */
  function Child(q: Proc, p: nat): Proc {
    q.(state := RUNNABLE, parent := Option.Some(p), kpt := true, cont := NewProc)
  }

  lemma ForkFills(s: State, c: nat, p: nat, j: nat, q: Proc)
    requires Shape(s) && c < |s.cpus| && p < |s.procs| && s.cpus[c].mode == Thread(p, InFork(j, FLock))
    requires j < |s.procs| && s.procs[j].lock.None? && s.procs[j].state.UNUSED? && q == s.procs[j].(lock := Option.Some(c), kpt := true, cont := NewProc)
    ensures Leads(s, c, YES, Put(s, c, Thread(p, InFork(j, FParent)), j, q))
  {
    var m1, m2, m3 := Thread(p, InFork(j, FTest)), Thread(p, InFork(j, FFill)), Thread(p, InFork(j, FParent));
    var q0 := s.procs[j].(lock := Option.Some(c));
    PutIt(s, c, j);
    PutGoes(s, c, YES, p, InFork(j, FLock), j, s.procs[j], m1, q0);
    PutGoes(s, c, YES, p, InFork(j, FTest), j, q0, m2, q0);
    PutGoes(s, c, YES, p, InFork(j, FFill), j, q0, m3, q);
    Three(s, c, YES, Put(s, c, m1, j, q0), Put(s, c, m2, j, q0), Put(s, c, m3, j, q));
  }

  lemma ForkStarts(s: State, c: nat, p: nat, j: nat, q: Proc)
    requires Shape(s) && c < |s.cpus| && p < |s.procs| && j < |s.procs|
    ensures Leads(Put(s, c, Thread(p, InFork(j, FParent)), j, q), c, YES,
                  Put(s, c, Thread(p, Run), j, q.(parent := Option.Some(p), state := RUNNABLE, lock := Option.None)))
  {
    var m1, m2, m3 := Thread(p, InFork(j, FReady)), Thread(p, InFork(j, FRelease)), Thread(p, Run);
    var q1 := q.(parent := Option.Some(p));
    var q2 := q1.(state := RUNNABLE);
    var q3 := q2.(lock := Option.None);
    PutGoes(s, c, YES, p, InFork(j, FParent), j, q, m1, q1);
    PutGoes(s, c, YES, p, InFork(j, FReady), j, q1, m2, q2);
    PutGoes(s, c, YES, p, InFork(j, FRelease), j, q2, m3, q3);
    Three(Put(s, c, Thread(p, InFork(j, FParent)), j, q), c, YES, Put(s, c, m1, j, q1), Put(s, c, m2, j, q2), Put(s, c, m3, j, q3));
  }

  /** Without memory the slot stays unused and nothing is left of it. */
  lemma ForkFails(s: State, c: nat, p: nat, j: nat)
    requires Shape(s) && c < |s.cpus| && p < |s.procs| && s.cpus[c].mode == Thread(p, InFork(j, FLock))
    requires j < |s.procs| && s.procs[j].lock.None? && s.procs[j].state.UNUSED?
    ensures Leads(s, c, NO, Put(s, c, Thread(p, Run), j, Emptied(s.procs[j])))
  {
    var m1, m2, m3, m4 := Thread(p, InFork(j, FTest)), Thread(p, InFork(j, FFill)), Thread(p, InFork(j, FRelease)), Thread(p, Run);
    var q, q' := s.procs[j], s.procs[j].(lock := Option.Some(c));
    PutIt(s, c, j);
    PutGoes(s, c, NO, p, InFork(j, FLock), j, q, m1, q');
    PutGoes(s, c, NO, p, InFork(j, FTest), j, q', m2, q');
    PutGoes(s, c, NO, p, InFork(j, FFill), j, q', m3, Freed(q'));
    PutGoes(s, c, NO, p, InFork(j, FRelease), j, Freed(q'), m4, Freed(q));
    Three(s, c, NO, Put(s, c, m1, j, q'), Put(s, c, m2, j, q'), Put(s, c, m3, j, Freed(q')));
    One(Put(s, c, m3, j, Freed(q')), c, NO, Put(s, c, m4, j, Freed(q)));
    LeadsOn(s, c, NO, Put(s, c, m3, j, Freed(q')), Put(s, c, m4, j, Freed(q)));
  }

  ghost predicate AllUsed(s: State, i: nat, j: nat) {
    forall k: nat :: i <= k < j && k < |s.procs| ==> !s.procs[k].state.UNUSED?
  }

  /** fork from slot i on: the first unused slot j becomes a RUNNABLE child of p, and nothing else
      changes; nothing changes at all when no slot is unused. */
  lemma {:induction false} ForkFrom(s: State, c: nat, p: nat, i: nat, j: nat)
    requires Shape(s) && c < |s.cpus| && p < |s.procs| && s.cpus[c].mode == Thread(p, InFork(i, FLock)) && Unlocked(s)
    requires i <= j <= |s.procs| && AllUsed(s, i, j) && (j < |s.procs| ==> s.procs[j].state.UNUSED?)
    ensures Leads(s, c, YES, if j < |s.procs| then Put(s, c, Thread(p, Run), j, Child(s.procs[j], p)) else At(s, c, Thread(p, Run)))
    decreases j - i
  {
    if i < j {
      var t := At(s, c, Thread(p, InFork(i + 1, FLock)));
      ForkPasses(s, c, p, i);
      ForkFrom(t, c, p, i + 1, j);
      if j < |s.procs| {
        PutPut(s, c, t.cpus[c].mode, Thread(p, Run), j, Child(s.procs[j], p), Child(s.procs[j], p));
        LeadsOn(s, c, YES, t, Put(s, c, Thread(p, Run), j, Child(s.procs[j], p)));
      } else {
        PutPut(s, c, t.cpus[c].mode, Thread(p, Run), p, s.procs[p], s.procs[p]);
        LeadsOn(s, c, YES, t, At(s, c, Thread(p, Run)));
      }
    } else if j < |s.procs| {
      var q := s.procs[j].(lock := Option.Some(c), kpt := true, cont := NewProc);
      ForkFills(s, c, p, j, q);
      ForkStarts(s, c, p, j, q);
      assert q.(parent := Option.Some(p), state := RUNNABLE, lock := Option.None) == Child(s.procs[j], p);
      LeadsOn(s, c, YES, Put(s, c, Thread(p, InFork(j, FParent)), j, q), Put(s, c, Thread(p, Run), j, Child(s.procs[j], p)));
    } else {
      GoThread(s, c, YES, p, InFork(i, FLock), At(s, c, Thread(p, Run)));
      One(s, c, YES, At(s, c, Thread(p, Run)));
    }
  }

  // ---------------------------------------------------------------------------------------
  // Giving up the CPU
  // ---------------------------------------------------------------------------------------

  /** CPU c is back in the scheduler behind slot p, which is q, with the global table loaded. */
  function Left(s: State, c: nat, p: nat, q: Proc): State
    requires c < |s.cpus| && p < |s.procs|
  {
    s.(procs := s.procs[p := q], cpus := s.cpus[c := Cpu(Scan(NextSlot(s, p)), Option.None)])
  }

  /** From a position about to switch back into the scheduler. */
  lemma Leaves(s: State, c: nat, a: Action, p: nat, pc: Pc, q: Proc)
    requires Shape(s) && c < |s.cpus| && p < |s.procs| && Leaving(pc)
    ensures Leads(Put(s, c, Thread(p, pc), p, q), c, a, Left(s, c, p, q.(lock := Option.None)))
  {
    var t := Put(s, c, Thread(p, pc), p, q);
    var t1 := At(t, c, Back(p));
    var t2 := t1.(cpus := t1.cpus[c := Cpu(Dropping(p), Option.None)]);
    var t3 := Left(s, c, p, q.(lock := Option.None));
    GoLeave(t, c, a, p, pc);
    GoSched(t1, c, a, t2);
    assert t2.procs[p := q.(lock := Option.None)] == t3.procs;
    assert t2.cpus[c := Cpu(Scan(NextSlot(s, p)), Option.None)] == t3.cpus;
    GoSched(t2, c, a, t3);
    Three(t, c, a, t1, t2, t3);
  }

  /** yield from a spot: p is RUNNABLE and will go on at that spot. */
  lemma YieldAlone(s: State, c: nat, a: Action, p: nat, sp: Spot)
    requires Shape(s) && c < |s.cpus| && p < |s.procs| && s.cpus[c].mode == Thread(p, InYield(YWant, sp)) && s.procs[p].lock.None? && !a.CallYield?
    ensures Leads(s, c, a, Left(s, c, p, s.procs[p].(state := RUNNABLE, cont := YieldBack(sp))))
  {
    var q, q1 := s.procs[p], s.procs[p].(lock := Option.Some(c));
    var q2 := q1.(state := RUNNABLE, cont := YieldBack(sp));
    var m1, m2 := Thread(p, InYield(YMark, sp)), Thread(p, InYield(YSwitch, sp));
    PutIt(s, c, p);
    PutGoes(s, c, a, p, InYield(YWant, sp), p, q, m1, q1);
    PutGoes(s, c, a, p, InYield(YMark, sp), p, q1, m2, q2);
    One(s, c, a, Put(s, c, m1, p, q1));
    One(Put(s, c, m1, p, q1), c, a, Put(s, c, m2, p, q2));
    Leaves(s, c, a, p, InYield(YSwitch, sp), q2);
    LeadsOn(s, c, a, Put(s, c, m1, p, q1), Put(s, c, m2, p, q2));
    LeadsOn(s, c, a, Put(s, c, m2, p, q2), Left(s, c, p, q2.(lock := Option.None)));
  }

  /** sleep(ch, x): p is SLEEPING on ch, x is released, and p will go on behind the switch. */
  lemma SleepAlone(s: State, c: nat, a: Action, p: nat, ch: nat, x: nat)
    requires Shape(s) && c < |s.cpus| && p < |s.procs| && s.cpus[c].mode == Thread(p, InSleep(ch, x, SWant)) && s.procs[p].lock.None? && !a.CallYield?
    ensures Leads(s, c, a, Left(s, c, p, s.procs[p].(state := SLEEPING, chan := Option.Some(Address(ch)), cont := SleepBack(ch, x))).(xlock := s.xlock - {x}))
  {
    var q, q1, s' := s.procs[p], s.procs[p].(lock := Option.Some(c)), s.(xlock := s.xlock - {x});
    var q2 := Slept(q1, Address(ch), SleepBack(ch, x));
    var m1, m2, m3 := Thread(p, InSleep(ch, x, SDropX)), Thread(p, InSleep(ch, x, SMark)), Thread(p, InSleep(ch, x, SSwitch));
    PutIt(s, c, p);
    PutGoes(s, c, a, p, InSleep(ch, x, SWant), p, q, m1, q1);
    PutPut(s, c, m1, m2, p, q1, q1);
    GoThread(Put(s, c, m1, p, q1), c, a, p, InSleep(ch, x, SDropX), Put(s', c, m2, p, q1));
    PutGoes(s', c, a, p, InSleep(ch, x, SMark), p, q1, m3, q2);
    Three(s, c, a, Put(s, c, m1, p, q1), Put(s', c, m2, p, q1), Put(s', c, m3, p, q2));
    Leaves(s', c, a, p, InSleep(ch, x, SSwitch), q2);
    LeadsOn(s, c, a, Put(s', c, m3, p, q2), Left(s', c, p, q2.(lock := Option.None)));
  }

  // ---------------------------------------------------------------------------------------
  // Coming back
  // ---------------------------------------------------------------------------------------

  /** A new process, or one that yielded, goes on without its lock. */
  lemma ResumeAlone(s: State, c: nat, a: Action, p: nat, k: Cont)
    requires Shape(s) && c < |s.cpus| && p < |s.procs| && s.cpus[c].mode == Thread(p, Resume(k)) && (k.NewProc? || k.YieldBack?) && !a.CallYield?
    ensures Leads(s, c, a, Put(s, c, Thread(p, if k.NewProc? then Run else PcAt(k.sp)), p, s.procs[p].(lock := Option.None)))
  {
    var t := Put(s, c, Thread(p, if k.NewProc? then Run else PcAt(k.sp)), p, s.procs[p].(lock := Option.None));
    GoThread(s, c, a, p, Resume(k), t);
    One(s, c, a, t);
  }

  /** A woken sleeper returns from sleep(ch, x) holding x, and is on no channel. */
  lemma SleepReturns(s: State, c: nat, a: Action, p: nat, ch: nat, x: nat)
    requires Shape(s) && c < |s.cpus| && p < |s.procs| && s.cpus[c].mode == Thread(p, Resume(SleepBack(ch, x))) && x !in s.xlock && !a.CallYield?
    ensures Leads(s, c, a, Put(s, c, Thread(p, Run), p, s.procs[p].(chan := Option.None, lock := Option.None)).(xlock := s.xlock[x := p]))
  {
    var q1 := s.procs[p].(chan := Option.None);
    var q2 := q1.(lock := Option.None);
    var m1, m2 := Thread(p, InSleep(ch, x, SDropOwn)), Thread(p, InSleep(ch, x, SReacquire));
    var t := Put(s, c, Thread(p, Run), p, q2).(xlock := s.xlock[x := p]);
    PutIt(s, c, p);
    PutGoes(s, c, a, p, Resume(SleepBack(ch, x)), p, s.procs[p], m1, q1);
    PutGoes(s, c, a, p, InSleep(ch, x, SDropOwn), p, q1, m2, q2);
    PutPut(s, c, m2, Thread(p, Run), p, q2, q2);
    GoThread(Put(s, c, m2, p, q2), c, a, p, InSleep(ch, x, SReacquire), t);
    Three(s, c, a, Put(s, c, m1, p, q1), Put(s, c, m2, p, q2), t);
  }

  /** A timer interrupt at a position without locks: the thread gives up the CPU and, when it is
      next picked, goes on at that very position with nothing else changed. */
  lemma ComesBack(s: State, c: nat, a: Action, p: nat, pc: Pc, d: nat) returns (sp: Spot)
    requires Shape(s) && c < |s.cpus| && p < |s.procs| && s.cpus[c].mode == Thread(p, pc) && SpotOf(pc).Some? && s.procs[p].lock.None? && !a.CallYield?
    ensures Goes(s, c, CallYield, At(s, c, Thread(p, InYield(YWant, sp))))
    ensures Leads(At(s, c, Thread(p, InYield(YWant, sp))), c, a, Left(s, c, p, s.procs[p].(state := RUNNABLE, cont := YieldBack(sp))))
    ensures forall u: State :: Shape(u) && d < |u.cpus| && p < |u.procs| && u.cpus[d].mode == Thread(p, Resume(YieldBack(sp))) ==>
              Leads(u, d, a, Put(u, d, Thread(p, pc), p, u.procs[p].(lock := Option.None)))
  {
    sp := SpotOf(pc).value;
    var t := At(s, c, Thread(p, InYield(YWant, sp)));
    GoThread(s, c, CallYield, p, pc, t);
    YieldAlone(t, c, a, p, sp);
    assert t.cpus[c := Cpu(Scan(NextSlot(s, p)), Option.None)] == s.cpus[c := Cpu(Scan(NextSlot(s, p)), Option.None)];
    assert PcAt(sp) == pc;
    forall u: State | Shape(u) && d < |u.cpus| && p < |u.procs| && u.cpus[d].mode == Thread(p, Resume(YieldBack(sp)))
      ensures Leads(u, d, a, Put(u, d, Thread(p, pc), p, u.procs[p].(lock := Option.None)))
    {
      ResumeAlone(u, d, a, p, YieldBack(sp));
    }
  }

  // ---------------------------------------------------------------------------------------
  // wakeup and kill
  // ---------------------------------------------------------------------------------------

  predicate SleepsOn(q: Proc, chan: Chan) {
    q.state.SLEEPING? && q.chan == Option.Some(chan)
  }

  /** Every slot from j on that sleeps on the channel made runnable. */
  function WokenFrom(procs: seq<Proc>, chan: Chan, j: nat): (r: seq<Proc>)
    ensures |r| == |procs|
    ensures forall i: nat :: i < |procs| ==> r[i] == if j <= i && SleepsOn(procs[i], chan) then procs[i].(state := RUNNABLE) else procs[i]
  {
    seq(|procs|, i requires 0 <= i < |procs| => if j <= i && SleepsOn(procs[i], chan) then procs[i].(state := RUNNABLE) else procs[i])
  }

  lemma WakesOne(s: State, c: nat, a: Action, p: nat, ch: nat, x: nat, j: nat)
    requires Shape(s) && c < |s.cpus| && p < |s.procs| && s.cpus[c].mode == Thread(p, InWake(ch, x, j, Lock)) && !a.CallYield?
    requires j < |s.procs| && s.procs[j].lock.None?
    ensures Leads(s, c, a, Put(s, c, Thread(p, InWake(ch, x, j + 1, Lock)), j, Woken(s.procs[j], Address(ch))))
  {
    var q, q1 := s.procs[j], s.procs[j].(lock := Option.Some(c));
    var q2 := Woken(q1, Address(ch));
    var m1, m2, m3 := Thread(p, InWake(ch, x, j, Look)), Thread(p, InWake(ch, x, j, Unlock)), Thread(p, InWake(ch, x, j + 1, Lock));
    PutIt(s, c, j);
    PutGoes(s, c, a, p, InWake(ch, x, j, Lock), j, q, m1, q1);
    PutGoes(s, c, a, p, InWake(ch, x, j, Look), j, q1, m2, q2);
    PutGoes(s, c, a, p, InWake(ch, x, j, Unlock), j, q2, m3, Woken(q, Address(ch)));
    Three(s, c, a, Put(s, c, m1, j, q1), Put(s, c, m2, j, q2), Put(s, c, m3, j, Woken(q, Address(ch))));
  }

  /** wakeup(ch): exactly the slots that sleep on ch are made RUNNABLE. */
  lemma {:induction false} WakeAlone(s: State, c: nat, a: Action, p: nat, ch: nat, x: nat, j: nat)
    requires Shape(s) && c < |s.cpus| && p < |s.procs| && s.cpus[c].mode == Thread(p, InWake(ch, x, j, Lock)) && !a.CallYield?
    requires j <= |s.procs| && Unlocked(s)
    ensures Leads(s, c, a, At(s, c, Thread(p, Run)).(procs := WokenFrom(s.procs, Address(ch), j)))
    decreases |s.procs| - j
  {
    var u := At(s, c, Thread(p, Run)).(procs := WokenFrom(s.procs, Address(ch), j));
    if j < |s.procs| {
      var w, m := Woken(s.procs[j], Address(ch)), Thread(p, InWake(ch, x, j + 1, Lock));
      var t := Put(s, c, m, j, w);
      WakesOne(s, c, a, p, ch, x, j);
      WakeAlone(t, c, a, p, ch, x, j + 1);
      PutPut(s, c, m, Thread(p, Run), j, w, w);
      assert WokenFrom(t.procs, Address(ch), j + 1) == WokenFrom(s.procs, Address(ch), j);
      LeadsOn(s, c, a, t, u);
    } else {
      assert u.procs == s.procs;
      GoThread(s, c, a, p, InWake(ch, x, j, Lock), u);
      One(s, c, a, u);
    }
  }

  lemma KillLooks(s: State, c: nat, p: nat, j: nat, yes: bool)
    requires Shape(s) && c < |s.cpus| && p < |s.procs| && s.cpus[c].mode == Thread(p, InKill(j, Lock, true))
    requires j < |s.procs| && s.procs[j].lock.None?
    ensures Leads(s, c, Choose(yes),
                  if yes then Put(s, c, Thread(p, Run), j, Killed(s.procs[j])) else At(s, c, Thread(p, InKill(j + 1, Lock, true))))
  {
    var q, q1, a := s.procs[j], s.procs[j].(lock := Option.Some(c)), Choose(yes);
    var q2 := if yes then Killed(q1) else q1;
    var q3 := if yes then Killed(q) else q;
    var m1, m2 := Thread(p, InKill(j, Look, true)), Thread(p, InKill(j, Unlock, !yes));
    var m3 := Thread(p, if yes then Run else InKill(j + 1, Lock, true));
    PutIt(s, c, j);
    PutGoes(s, c, a, p, InKill(j, Lock, true), j, q, m1, q1);
    PutGoes(s, c, a, p, InKill(j, Look, true), j, q1, m2, q2);
    PutGoes(s, c, a, p, InKill(j, Unlock, !yes), j, q2, m3, q3);
    PutPut(s, c, m3, m3, j, q, q);
    Three(s, c, a, Put(s, c, m1, j, q1), Put(s, c, m2, j, q2), Put(s, c, m3, j, q3));
  }

  /** kill of the process in slot j, when the slots before it have other pids: it is killed, and
      RUNNABLE if it slept; with no such slot nothing changes. */
  lemma {:induction false} KillPasses(s: State, c: nat, p: nat, i: nat, j: nat)
    requires Shape(s) && c < |s.cpus| && p < |s.procs| && s.cpus[c].mode == Thread(p, InKill(i, Lock, true)) && i <= j <= |s.procs| && Unlocked(s)
    ensures Leads(s, c, Choose(false), At(s, c, Thread(p, InKill(j, Lock, true))))
    decreases j - i
  {
    var u := At(s, c, Thread(p, InKill(j, Lock, true)));
    PutPut(s, c, Thread(p, InKill(i + 1, Lock, true)), u.cpus[c].mode, p, s.procs[p], s.procs[p]);
    if i < j {
      var t := At(s, c, Thread(p, InKill(i + 1, Lock, true)));
      KillLooks(s, c, p, i, false);
      KillPasses(t, c, p, i + 1, j);
      LeadsOn(s, c, Choose(false), t, u);
    } else {
      PutIt(s, c, p);
      PutPut(s, c, s.cpus[c].mode, u.cpus[c].mode, p, s.procs[p], s.procs[p]);
      assert Alone(s, c, Choose(false), 0, u);
    }
  }

  lemma KillHits(s: State, c: nat, p: nat, i: nat, j: nat) returns (t: State)
    requires Shape(s) && c < |s.cpus| && p < |s.procs| && s.cpus[c].mode == Thread(p, InKill(i, Lock, true)) && i <= j <= |s.procs| && Unlocked(s)
    ensures Leads(s, c, Choose(false), t)
    ensures Leads(t, c, Choose(true),
                  if j < |s.procs|
                  then Put(s, c, Thread(p, Run), j, s.procs[j].(killed := true, state := if s.procs[j].state.SLEEPING? then RUNNABLE else s.procs[j].state))
                  else At(s, c, Thread(p, Run)))
  {
    t := At(s, c, Thread(p, InKill(j, Lock, true)));
    KillPasses(s, c, p, i, j);
    PutPut(s, c, t.cpus[c].mode, Thread(p, Run), p, s.procs[p], s.procs[p]);
    if j < |s.procs| {
      KillLooks(t, c, p, j, true);
      PutPut(s, c, t.cpus[c].mode, Thread(p, Run), j, Killed(s.procs[j]), Killed(s.procs[j]));
    } else {
      GoThread(t, c, Choose(true), p, InKill(j, Lock, true), At(s, c, Thread(p, Run)));
      One(t, c, Choose(true), At(s, c, Thread(p, Run)));
    }
  }

  // ---------------------------------------------------------------------------------------
  // wait
  // ---------------------------------------------------------------------------------------

  predicate IsKid(s: State, p: nat, i: nat) {
    i < |s.procs| && s.procs[i].parent == Option.Some(p)
  }

  /** p holds its own lock and nobody holds another. */
  ghost predicate OwnLocked(s: State, c: nat, p: nat) {
    && p < |s.procs| && s.procs[p].lock == Option.Some(c) && !IsKid(s, p, p)
    && forall j: nat :: j < |s.procs| && j != p ==> s.procs[j].lock.None?
  }

  /** A slot that is no child, or no zombie, is passed. */
  lemma WaitPasses(s: State, c: nat, p: nat, i: nat, kids: bool)
    requires Shape(s) && c < |s.cpus| && OwnLocked(s, c, p) && s.cpus[c].mode == Thread(p, InWait(WScan(i, kids)))
    requires i < |s.procs| && !(IsKid(s, p, i) && s.procs[i].state.ZOMBIE?)
    ensures Leads(s, c, YES, At(s, c, Thread(p, InWait(WScan(i + 1, kids || IsKid(s, p, i))))))
  {
    var m := Thread(p, InWait(WScan(i + 1, kids || IsKid(s, p, i))));
    if IsKid(s, p, i) {
      var q, q' := s.procs[i], s.procs[i].(lock := Option.Some(c));
      var m1, m2, m3 := Thread(p, InWait(WKid(i, KLock))), Thread(p, InWait(WKid(i, KLook))), Thread(p, InWait(WKid(i, KNext)));
      PutIt(s, c, i);
      PutGoes(s, c, YES, p, InWait(WScan(i, kids)), i, q, m1, q);
      PutGoes(s, c, YES, p, InWait(WKid(i, KLock)), i, q, m2, q');
      PutGoes(s, c, YES, p, InWait(WKid(i, KLook)), i, q', m3, q');
      PutGoes(s, c, YES, p, InWait(WKid(i, KNext)), i, q', m, q);
      Three(s, c, YES, Put(s, c, m1, i, q), Put(s, c, m2, i, q'), Put(s, c, m3, i, q'));
      One(Put(s, c, m3, i, q'), c, YES, Put(s, c, m, i, q));
      LeadsOn(s, c, YES, Put(s, c, m3, i, q'), Put(s, c, m, i, q));
      PutPut(s, c, m, m, i, q, q);
    } else {
      GoThread(s, c, YES, p, InWait(WScan(i, kids)), At(s, c, m));
      One(s, c, YES, At(s, c, m));
    }
  }

  /** A zombie child is freed. */
  lemma WaitFrees(s: State, c: nat, p: nat, j: nat, kids: bool)
    requires Shape(s) && c < |s.cpus| && OwnLocked(s, c, p) && s.cpus[c].mode == Thread(p, InWait(WScan(j, kids)))
    requires IsKid(s, p, j) && s.procs[j].state.ZOMBIE?
    ensures Leads(s, c, YES, Put(s, c, Thread(p, InWait(WDropOwn)), j, Freed(s.procs[j])))
  {
    var q, q' := s.procs[j], s.procs[j].(lock := Option.Some(c));
    var m1, m2, m3 := Thread(p, InWait(WKid(j, KLock))), Thread(p, InWait(WKid(j, KLook))), Thread(p, InWait(WKid(j, KDone)));
    var m4 := Thread(p, InWait(WDropOwn));
    PutIt(s, c, j);
    PutGoes(s, c, YES, p, InWait(WScan(j, kids)), j, q, m1, q);
    PutGoes(s, c, YES, p, InWait(WKid(j, KLock)), j, q, m2, q');
    PutGoes(s, c, YES, p, InWait(WKid(j, KLook)), j, q', m3, Freed(q'));
    PutGoes(s, c, YES, p, InWait(WKid(j, KDone)), j, Freed(q'), m4, Freed(q));
    Three(s, c, YES, Put(s, c, m1, j, q), Put(s, c, m2, j, q'), Put(s, c, m3, j, Freed(q')));
    One(Put(s, c, m3, j, Freed(q')), c, YES, Put(s, c, m4, j, Freed(q)));
    LeadsOn(s, c, YES, Put(s, c, m3, j, Freed(q')), Put(s, c, m4, j, Freed(q)));
  }

  /** A zombie child whose status cannot be copied out stays. */
  lemma WaitKeeps(s: State, c: nat, p: nat, j: nat, kids: bool)
    requires Shape(s) && c < |s.cpus| && OwnLocked(s, c, p) && s.cpus[c].mode == Thread(p, InWait(WScan(j, kids)))
    requires IsKid(s, p, j) && s.procs[j].state.ZOMBIE?
    ensures Leads(s, c, NO, At(s, c, Thread(p, InWait(WDropOwn))))
  {
    var q, q' := s.procs[j], s.procs[j].(lock := Option.Some(c));
    var m1, m2, m3 := Thread(p, InWait(WKid(j, KLock))), Thread(p, InWait(WKid(j, KLook))), Thread(p, InWait(WKid(j, KDone)));
    var m4 := Thread(p, InWait(WDropOwn));
    PutIt(s, c, j);
    PutGoes(s, c, NO, p, InWait(WScan(j, kids)), j, q, m1, q);
    PutGoes(s, c, NO, p, InWait(WKid(j, KLock)), j, q, m2, q');
    PutGoes(s, c, NO, p, InWait(WKid(j, KLook)), j, q', m3, q');
    PutGoes(s, c, NO, p, InWait(WKid(j, KDone)), j, q', m4, q);
    Three(s, c, NO, Put(s, c, m1, j, q), Put(s, c, m2, j, q'), Put(s, c, m3, j, q'));
    One(Put(s, c, m3, j, q'), c, NO, Put(s, c, m4, j, q));
    LeadsOn(s, c, NO, Put(s, c, m3, j, q'), Put(s, c, m4, j, q));
    PutPut(s, c, m4, m4, j, q, q);
  }

  /** p releases its lock and returns. */
  lemma WaitReturns(s: State, c: nat, p: nat)
    requires Shape(s) && c < |s.cpus| && p < |s.procs| && s.cpus[c].mode == Thread(p, InWait(WDropOwn))
    ensures Leads(s, c, YES, Put(s, c, Thread(p, Run), p, s.procs[p].(lock := Option.None)))
  {
    var t := Put(s, c, Thread(p, Run), p, s.procs[p].(lock := Option.None));
    GoThread(s, c, YES, p, InWait(WDropOwn), t);
    One(s, c, YES, t);
  }

  /** No zombie: p returns if it has no child or is killed, and else sleeps on itself. */
  lemma WaitEnds(s: State, c: nat, p: nat, i: nat, kids: bool)
    requires Shape(s) && c < |s.cpus| && OwnLocked(s, c, p) && s.cpus[c].mode == Thread(p, InWait(WScan(i, kids))) && i >= |s.procs|
    ensures var q := s.procs[p].(lock := Option.None);
            Leads(s, c, YES, if !kids || s.procs[p].killed then Put(s, c, Thread(p, Run), p, q) else Left(s, c, p, Slept(q, OfProc(p), WaitBack)))
  {
    var q := s.procs[p];
    if !kids || q.killed {
      var t := At(s, c, Thread(p, InWait(WDropOwn)));
      GoThread(s, c, YES, p, InWait(WScan(i, kids)), t);
      One(s, c, YES, t);
      WaitReturns(t, c, p);
      PutPut(s, c, t.cpus[c].mode, Thread(p, Run), p, q.(lock := Option.None), q);
      LeadsOn(s, c, YES, t, Put(s, c, Thread(p, Run), p, q.(lock := Option.None)));
    } else {
      var m1, m2, q2 := Thread(p, InWait(WMark)), Thread(p, InWait(WSwitch)), Slept(q, OfProc(p), WaitBack);
      PutIt(s, c, p);
      PutGoes(s, c, YES, p, InWait(WScan(i, kids)), p, q, m1, q);
      PutGoes(s, c, YES, p, InWait(WMark), p, q, m2, q2);
      One(s, c, YES, Put(s, c, m1, p, q));
      One(Put(s, c, m1, p, q), c, YES, Put(s, c, m2, p, q2));
      Leaves(s, c, YES, p, InWait(WSwitch), q2);
      LeadsOn(s, c, YES, Put(s, c, m1, p, q), Put(s, c, m2, p, q2));
      LeadsOn(s, c, YES, Put(s, c, m2, p, q2), Left(s, c, p, q2.(lock := Option.None)));
    }
  }

  ghost predicate NoZombie(s: State, p: nat, i: nat, j: nat) {
    forall k: nat :: i <= k < j && IsKid(s, p, k) ==> !s.procs[k].state.ZOMBIE?
  }

  ghost predicate HasKid(s: State, p: nat, i: nat, j: nat) {
    exists k: nat :: i <= k < j && IsKid(s, p, k)
  }

  /** The scan of wait from slot i comes to slot j when there is no zombie child between. */
  lemma {:induction false} WaitScans(s: State, c: nat, p: nat, i: nat, j: nat, kids: bool)
    requires Shape(s) && c < |s.cpus| && OwnLocked(s, c, p) && s.cpus[c].mode == Thread(p, InWait(WScan(i, kids)))
    requires i <= j <= |s.procs| && NoZombie(s, p, i, j)
    ensures Leads(s, c, YES, At(s, c, Thread(p, InWait(WScan(j, kids || HasKid(s, p, i, j))))))
    decreases j - i
  {
    var u := At(s, c, Thread(p, InWait(WScan(j, kids || HasKid(s, p, i, j)))));
    if i < j {
      var kids' := kids || IsKid(s, p, i);
      var t := At(s, c, Thread(p, InWait(WScan(i + 1, kids'))));
      WaitPasses(s, c, p, i, kids);
      WaitScans(t, c, p, i + 1, j, kids');
      assert HasKid(s, p, i, j) <==> IsKid(s, p, i) || HasKid(t, p, i + 1, j) by {
        assert forall k: nat :: IsKid(t, p, k) == IsKid(s, p, k);
      }
      PutPut(s, c, t.cpus[c].mode, u.cpus[c].mode, p, s.procs[p], s.procs[p]);
      LeadsOn(s, c, YES, t, u);
    } else {
      PutIt(s, c, p);
      PutPut(s, c, s.cpus[c].mode, u.cpus[c].mode, p, s.procs[p], s.procs[p]);
      assert u == s;
      assert Alone(s, c, YES, 0, u);
    }
  }

  /** A slot that can be used again. */
  function Emptied(q: Proc): Proc {
    Proc(UNUSED, Option.None, Option.None, false, q.lock, false, q.cont)
  }

  /** Where wait goes from the start of its scan: j is the first zombie child, or no slot. */
  function Waited(s: State, c: nat, p: nat, j: nat, kids: bool): State
    requires c < |s.cpus| && p < |s.procs|
  {
    var q := s.procs[p].(lock := Option.None);
    if j < |s.procs| then Put(s, c, Thread(p, Run), p, q).(procs := s.procs[p := q][j := Emptied(s.procs[j])])
    else if !kids || q.killed then Put(s, c, Thread(p, Run), p, q)
    else Left(s, c, p, q.(state := SLEEPING, chan := Option.Some(OfProc(p)), cont := WaitBack))
  }

  /** The first zombie child is freed; with none p returns if it has no child or is killed, and
      else sleeps on itself; nothing else changes. */
  lemma WaitAlone(s: State, c: nat, p: nat, j: nat)
    requires Shape(s) && c < |s.cpus| && OwnLocked(s, c, p) && s.cpus[c].mode == Thread(p, InWait(WScan(0, false)))
    requires j <= |s.procs| && NoZombie(s, p, 0, j) && (j < |s.procs| ==> IsKid(s, p, j) && s.procs[j].state.ZOMBIE?)
    ensures Leads(s, c, YES, Waited(s, c, p, j, HasKid(s, p, 0, |s.procs|)))
  {
    var kids := HasKid(s, p, 0, j);
    var q := s.procs[p].(lock := Option.None);
    var t := At(s, c, Thread(p, InWait(WScan(j, kids))));
    WaitScans(s, c, p, 0, j, false);
    if j < |s.procs| {
      var f := Freed(s.procs[j]);
      WaitFrees(t, c, p, j, kids);
      PutPut(s, c, t.cpus[c].mode, Thread(p, InWait(WDropOwn)), j, f, f);
      var u := Put(s, c, Thread(p, InWait(WDropOwn)), j, f);
      WaitReturns(u, c, p);
      LeadsOn(s, c, YES, t, u);
      PutPut(s, c, u.cpus[c].mode, Thread(p, Run), j, f, f);
      assert u.procs[p := q] == s.procs[p := q][j := f];
      LeadsOn(s, c, YES, u, Waited(s, c, p, j, HasKid(s, p, 0, |s.procs|)));
    } else {
      WaitEnds(t, c, p, j, kids);
      PutPut(s, c, t.cpus[c].mode, Thread(p, Run), p, q, q);
      assert t.cpus[c := Cpu(Scan(NextSlot(s, p)), Option.None)] == s.cpus[c := Cpu(Scan(NextSlot(s, p)), Option.None)];
      LeadsOn(s, c, YES, t, Waited(s, c, p, j, kids));
    }
  }

  /** wait begins by taking the caller's lock; back from its sleep it scans again. */
  lemma WaitBegins(s: State, c: nat, p: nat)
    requires Shape(s) && c < |s.cpus| && p < |s.procs| && s.cpus[c].mode == Thread(p, InWait(WWant)) && s.procs[p].lock.None?
    ensures Leads(s, c, YES, Put(s, c, Thread(p, InWait(WScan(0, false))), p, s.procs[p].(lock := Option.Some(c))))
  {
    var t := Put(s, c, Thread(p, InWait(WScan(0, false))), p, s.procs[p].(lock := Option.Some(c)));
    GoThread(s, c, YES, p, InWait(WWant), t);
    One(s, c, YES, t);
  }

  lemma WaitScansAgain(s: State, c: nat, p: nat)
    requires Shape(s) && c < |s.cpus| && p < |s.procs| && s.cpus[c].mode == Thread(p, Resume(WaitBack))
    ensures Leads(s, c, YES, Put(s, c, Thread(p, InWait(WScan(0, false))), p, s.procs[p].(chan := Option.None)))
  {
    var t := Put(s, c, Thread(p, InWait(WScan(0, false))), p, s.procs[p].(chan := Option.None));
    GoThread(s, c, YES, p, Resume(WaitBack), t);
    One(s, c, YES, t);
  }

  // ---------------------------------------------------------------------------------------
  // exit
  // ---------------------------------------------------------------------------------------

  /** init is woken if it waits. */
  lemma ExitWakesInit(s: State, c: nat, p: nat)
    requires Shape(s) && c < |s.cpus| && p < |s.procs| && s.cpus[c].mode == Thread(p, InExit(0, XInit(Lock))) && s.procs[INIT].lock.None?
    ensures Leads(s, c, YES, Put(s, c, Thread(p, InExit(0, XWantOwn)), INIT, Woken(s.procs[INIT], OfProc(INIT))))
  {
    var q, q1 := s.procs[INIT], s.procs[INIT].(lock := Option.Some(c));
    var q2 := Woken(q1, OfProc(INIT));
    var m1, m2, m3 := Thread(p, InExit(0, XInit(Look))), Thread(p, InExit(0, XInit(Unlock))), Thread(p, InExit(0, XWantOwn));
    PutIt(s, c, INIT);
    PutGoes(s, c, YES, p, InExit(0, XInit(Lock)), INIT, q, m1, q1);
    PutGoes(s, c, YES, p, InExit(0, XInit(Look)), INIT, q1, m2, q2);
    PutGoes(s, c, YES, p, InExit(0, XInit(Unlock)), INIT, q2, m3, Woken(q, OfProc(INIT)));
    Three(s, c, YES, Put(s, c, m1, INIT, q1), Put(s, c, m2, INIT, q2), Put(s, c, m3, INIT, Woken(q, OfProc(INIT))));
  }

  /** The parent is read under p's lock. */
  lemma ExitReadsParent(s: State, c: nat, p: nat, pp: nat)
    requires Shape(s) && c < |s.cpus| && p < |s.procs| && s.cpus[c].mode == Thread(p, InExit(0, XWantOwn))
    requires s.procs[p].lock.None? && s.procs[p].parent == Option.Some(pp)
    ensures Leads(s, c, YES, At(s, c, Thread(p, InExit(pp, XWantParent))))
  {
    var q, q1 := s.procs[p], s.procs[p].(lock := Option.Some(c));
    var m1, m2, m3 := Thread(p, InExit(0, XCopy)), Thread(p, InExit(pp, XDropOwn)), Thread(p, InExit(pp, XWantParent));
    PutIt(s, c, p);
    PutGoes(s, c, YES, p, InExit(0, XWantOwn), p, q, m1, q1);
    PutGoes(s, c, YES, p, InExit(0, XCopy), p, q1, m2, q1);
    PutGoes(s, c, YES, p, InExit(pp, XDropOwn), p, q1, m3, q);
    PutPut(s, c, m3, m3, p, q, q);
    Three(s, c, YES, Put(s, c, m1, p, q1), Put(s, c, m2, p, q1), Put(s, c, m3, p, q));
  }

  /** Both locks are taken, the parent's first. */
  lemma ExitLocks(s: State, c: nat, p: nat, pp: nat)
    requires Shape(s) && c < |s.cpus| && p < |s.procs| && pp < |s.procs| && p != pp && s.cpus[c].mode == Thread(p, InExit(pp, XWantParent))
    requires s.procs[p].lock.None? && s.procs[pp].lock.None?
    ensures Leads(s, c, YES, Put(s, c, Thread(p, InExit(pp, XLate(LScan(0)))), p, s.procs[p].(lock := Option.Some(c))).(
                    procs := s.procs[pp := s.procs[pp].(lock := Option.Some(c))][p := s.procs[p].(lock := Option.Some(c))]))
  {
    var q, q' := s.procs[p].(lock := Option.Some(c)), s.procs[pp].(lock := Option.Some(c));
    var m1, m2 := Thread(p, InExit(pp, XWantOwnAgain)), Thread(p, InExit(pp, XLate(LScan(0))));
    var t := Put(s, c, m1, pp, q');
    var u := Put(t, c, m2, p, q);
    GoThread(s, c, YES, p, InExit(pp, XWantParent), t);
    GoThread(t, c, YES, p, InExit(pp, XWantOwnAgain), u);
    PutPut(s, c, m1, m2, pp, q', q');
    One(s, c, YES, t);
    One(t, c, YES, u);
    LeadsOn(s, c, YES, t, u);
  }

  /** Every child of p from slot i on given to init. */
  function ReparentedFrom(procs: seq<Proc>, p: nat, i: nat): (r: seq<Proc>)
    ensures |r| == |procs|
    ensures forall k: nat :: k < |procs| ==> r[k] == if i <= k && procs[k].parent == Option.Some(p) then procs[k].(parent := Option.Some(INIT)) else procs[k]
  {
    seq(|procs|, k requires 0 <= k < |procs| =>
      if i <= k && procs[k].parent == Option.Some(p) then procs[k].(parent := Option.Some(INIT)) else procs[k])
  }

  lemma GivesAway(s: State, c: nat, p: nat, pp: nat, i: nat)
    requires Shape(s) && c < |s.cpus| && p < |s.procs| && s.cpus[c].mode == Thread(p, InExit(pp, XLate(LScan(i))))
    requires IsKid(s, p, i) && s.procs[i].lock.None?
    ensures Leads(s, c, YES, Put(s, c, Thread(p, InExit(pp, XLate(LScan(i + 1)))), i, s.procs[i].(parent := Option.Some(INIT))))
  {
    var q, q1 := s.procs[i], s.procs[i].(lock := Option.Some(c));
    var q2, q3 := q1.(parent := Option.Some(INIT)), q.(parent := Option.Some(INIT));
    var m1, m2 := Thread(p, InExit(pp, XLate(LKid(i, Lock)))), Thread(p, InExit(pp, XLate(LKid(i, Look))));
    var m3, m4 := Thread(p, InExit(pp, XLate(LKid(i, Unlock)))), Thread(p, InExit(pp, XLate(LScan(i + 1))));
    PutIt(s, c, i);
    PutGoes(s, c, YES, p, InExit(pp, XLate(LScan(i))), i, q, m1, q);
    PutGoes(s, c, YES, p, InExit(pp, XLate(LKid(i, Lock))), i, q, m2, q1);
    PutGoes(s, c, YES, p, InExit(pp, XLate(LKid(i, Look))), i, q1, m3, q2);
    PutGoes(s, c, YES, p, InExit(pp, XLate(LKid(i, Unlock))), i, q2, m4, q3);
    Three(s, c, YES, Put(s, c, m1, i, q), Put(s, c, m2, i, q1), Put(s, c, m3, i, q2));
    One(Put(s, c, m3, i, q2), c, YES, Put(s, c, m4, i, q3));
    LeadsOn(s, c, YES, Put(s, c, m3, i, q2), Put(s, c, m4, i, q3));
  }

  ghost predicate KidsUnlocked(s: State, p: nat, i: nat) {
    forall k: nat :: i <= k && IsKid(s, p, k) ==> s.procs[k].lock.None?
  }

  /** The scan of reparent from slot i on. */
  lemma {:induction false} Reparents(s: State, c: nat, p: nat, pp: nat, i: nat)
    requires Shape(s) && c < |s.cpus| && p < |s.procs| && s.cpus[c].mode == Thread(p, InExit(pp, XLate(LScan(i)))) && i <= |s.procs| && KidsUnlocked(s, p, i)
    ensures Leads(s, c, YES, At(s, c, Thread(p, InExit(pp, XLate(LWake)))).(procs := ReparentedFrom(s.procs, p, i)))
    decreases |s.procs| - i
  {
    var m, m' := Thread(p, InExit(pp, XLate(LScan(i + 1)))), Thread(p, InExit(pp, XLate(LWake)));
    var u := At(s, c, m').(procs := ReparentedFrom(s.procs, p, i));
    if i == |s.procs| {
      assert u.procs == s.procs;
      GoThread(s, c, YES, p, InExit(pp, XLate(LScan(i))), u);
      One(s, c, YES, u);
    } else {
      var q := if IsKid(s, p, i) then s.procs[i].(parent := Option.Some(INIT)) else s.procs[i];
      var t := Put(s, c, m, i, q);
      if IsKid(s, p, i) {
        GivesAway(s, c, p, pp, i);
      } else {
        PutPut(s, c, m, m, i, q, q);
        GoThread(s, c, YES, p, InExit(pp, XLate(LScan(i))), t);
        One(s, c, YES, t);
      }
      assert KidsUnlocked(t, p, i + 1) by {
        assert forall k: nat :: i + 1 <= k ==> IsKid(t, p, k) == IsKid(s, p, k);
      }
      Reparents(t, c, p, pp, i + 1);
      PutPut(s, c, m, m', i, q, q);
      assert ReparentedFrom(t.procs, p, i + 1) == ReparentedFrom(s.procs, p, i);
      LeadsOn(s, c, YES, t, u);
    }
  }

  /** The parent is woken, p is a zombie, and the CPU goes back to the scheduler. */
  lemma ExitDies(s: State, c: nat, p: nat, pp: nat)
    requires Shape(s) && c < |s.cpus| && p < |s.procs| && pp < |s.procs| && p != pp && s.cpus[c].mode == Thread(p, InExit(pp, XLate(LWake)))
    ensures Leads(s, c, YES, Left(s.(procs := s.procs[pp := Woken(s.procs[pp], OfProc(pp)).(lock := Option.None)]), c, p,
                                  s.procs[p].(state := ZOMBIE, lock := Option.None)))
  {
    var w, z := Woken(s.procs[pp], OfProc(pp)), s.procs[p].(state := ZOMBIE);
    var m1, m2, m3 := Thread(p, InExit(pp, XLate(LZombie))), Thread(p, InExit(pp, XLate(LDropParent))), Thread(p, InExit(pp, XSwitch));
    var s1 := Put(s, c, m1, pp, w);
    var s2 := Put(s1, c, m2, p, z);
    var s3 := Put(s2, c, m3, pp, w.(lock := Option.None));
    GoThread(s, c, YES, p, InExit(pp, XLate(LWake)), s1);
    GoThread(s1, c, YES, p, InExit(pp, XLate(LZombie)), s2);
    GoThread(s2, c, YES, p, InExit(pp, XLate(LDropParent)), s3);
    Three(s, c, YES, s1, s2, s3);
    var t := s.(procs := s.procs[pp := w.(lock := Option.None)]);
    assert Put(t, c, m3, p, z) == s3 by {
      assert s3.procs == t.procs[p := z];
      assert s3.cpus == s.cpus[c := s.cpus[c].(mode := m3)];
    }
    Leaves(t, c, YES, p, InExit(pp, XSwitch), z);
    LeadsOn(s, c, YES, s3, Left(t, c, p, z.(lock := Option.None)));
  }

  /** The table after p's exit, when its parent is pp. */
  function Exited(procs: seq<Proc>, p: nat, pp: nat): (r: seq<Proc>)
    ensures |r| == |procs| && forall k: nat :: k < |procs| ==> r[k] == AfterExit(procs, p, pp, k)
  {
    seq(|procs|, k requires 0 <= k < |procs| => AfterExit(procs, p, pp, k))
  }

  /** p is a zombie, its children are init's, and init and the parent are RUNNABLE if they waited. */
  function AfterExit(procs: seq<Proc>, p: nat, pp: nat, k: nat): Proc
    requires k < |procs|
  {
    var q := if procs[k].parent == Option.Some(p) then procs[k].(parent := Option.Some(INIT)) else procs[k];
    if k == p then q.(state := ZOMBIE)
    else if (k == INIT || k == pp) && SleepsOn(q, OfProc(k)) then q.(state := RUNNABLE)
    else q
  }

  /** The table when both locks are held. */
  function BothLocked(procs: seq<Proc>, c: nat, p: nat, pp: nat): seq<Proc>
    requires INIT < |procs| && p < |procs| && pp < |procs|
  {
    var w := procs[INIT := Woken(procs[INIT], OfProc(INIT))];
    w[pp := w[pp].(lock := Option.Some(c))][p := w[p].(lock := Option.Some(c))]
  }

  lemma ExitScans(s: State, c: nat, p: nat, pp: nat)
    requires Shape(s) && c < |s.cpus| && p < |s.procs| && pp < |s.procs| && p != pp && p != INIT && Unlocked(s)
    requires s.cpus[c].mode == Thread(p, InExit(0, XInit(Lock))) && s.procs[p].parent == Option.Some(pp)
    ensures Leads(s, c, YES, At(s, c, Thread(p, InExit(pp, XLate(LScan(0))))).(procs := BothLocked(s.procs, c, p, pp)))
  {
    var w := Woken(s.procs[INIT], OfProc(INIT));
    var m1, m2, m3 := Thread(p, InExit(0, XWantOwn)), Thread(p, InExit(pp, XWantParent)), Thread(p, InExit(pp, XLate(LScan(0))));
    var s1 := Put(s, c, m1, INIT, w);
    ExitWakesInit(s, c, p);
    ExitReadsParent(s1, c, p, pp);
    PutPut(s, c, m1, m2, INIT, w, w);
    var s2 := Put(s, c, m2, INIT, w);
    LeadsOn(s, c, YES, s1, s2);
    ExitLocks(s2, c, p, pp);
    PutPut(s, c, m2, m3, INIT, w, w);
    LeadsOn(s, c, YES, s2, At(s, c, m3).(procs := BothLocked(s.procs, c, p, pp)));
  }

  /** The steps on the table, put together. */
  lemma ExitedIs(procs: seq<Proc>, c: nat, p: nat, pp: nat)
    requires INIT < |procs| && p < |procs| && pp < |procs| && p != pp && p != INIT && procs[p].parent == Option.Some(pp)
    requires forall j: nat :: j < |procs| ==> procs[j].lock.None?
    ensures var r := ReparentedFrom(BothLocked(procs, c, p, pp), p, 0);
            r[pp := Woken(r[pp], OfProc(pp)).(lock := Option.None)][p := r[p].(state := ZOMBIE, lock := Option.None)] == Exited(procs, p, pp)
  {
  }

  /** exit, for a process that is neither its own parent nor its parent's parent, as none is in any
      run (`ProcSteps.NotEachOthersParent`). */
  lemma ExitAlone(s: State, c: nat, p: nat, pp: nat)
    requires Shape(s) && c < |s.cpus| && p < |s.procs| && pp < |s.procs| && p != pp && p != INIT && Unlocked(s)
    requires s.cpus[c].mode == Thread(p, InExit(0, XInit(Lock))) && s.procs[p].parent == Option.Some(pp) && !IsKid(s, p, pp)
    ensures Leads(s, c, YES, s.(procs := Exited(s.procs, p, pp), cpus := s.cpus[c := Cpu(Scan(NextSlot(s, p)), Option.None)]))
  {
    ExitScans(s, c, p, pp);
    var s3 := At(s, c, Thread(p, InExit(pp, XLate(LScan(0))))).(procs := BothLocked(s.procs, c, p, pp));
    Reparents(s3, c, p, pp, 0);
    var s4 := At(s3, c, Thread(p, InExit(pp, XLate(LWake)))).(procs := ReparentedFrom(s3.procs, p, 0));
    LeadsOn(s, c, YES, s3, s4);
    ExitDies(s4, c, p, pp);
    ExitedIs(s.procs, c, p, pp);
    var u := s.(procs := Exited(s.procs, p, pp), cpus := s.cpus[c := Cpu(Scan(NextSlot(s, p)), Option.None)]);
    assert s4.cpus[c := Cpu(Scan(NextSlot(s, p)), Option.None)] == u.cpus;
    LeadsOn(s, c, YES, s4, u);
  }

  // ---------------------------------------------------------------------------------------
  // A run from boot
  // ---------------------------------------------------------------------------------------

  /** Some steps lead from s to t. */
  ghost predicate Steps(s: State, n: nat, t: State)
    decreases n
  {
    if n == 0 then s == t else exists c: nat, a: Action, r: State :: Goes(s, c, a, r) && Steps(r, n - 1, t)
  }

  ghost predicate Reaches(s: State, t: State) {
    exists n: nat :: Steps(s, n, t)
  }

  lemma {:induction false} StepsThen(s: State, n: nat, t: State, m: nat, u: State)
    requires Steps(s, n, t) && Steps(t, m, u)
    ensures Steps(s, n + m, u)
    decreases n
  {
    if n > 0 {
      var c: nat, a: Action, r: State :| Goes(s, c, a, r) && Steps(r, n - 1, t);
      StepsThen(r, n - 1, t, m, u);
    }
  }

  lemma ReachesOn(s: State, t: State, u: State)
    requires Reaches(s, t) && Reaches(t, u)
    ensures Reaches(s, u)
  {
    var n: nat :| Steps(s, n, t);
    var m: nat :| Steps(t, m, u);
    StepsThen(s, n, t, m, u);
  }

  lemma {:induction false} AloneSteps(s: State, c: nat, a: Action, n: nat, t: State)
    requires Alone(s, c, a, n, t)
    ensures Steps(s, n, t)
    decreases n
  {
    if n > 0 {
      var r :| Goes(s, c, a, r) && Alone(r, c, a, n - 1, t);
      AloneSteps(r, c, a, n - 1, t);
    }
  }

  lemma LeadsReaches(s: State, c: nat, a: Action, t: State)
    requires Leads(s, c, a, t)
    ensures Reaches(s, t)
  {
    var n: nat :| Alone(s, c, a, n, t);
    AloneSteps(s, c, a, n, t);
  }

  /** The state is reached by a run from boot. */
  ghost predicate Reachable(t: State) {
    exists run: seq<State>, events: seq<Event> :: IsRun(run, events) && run[|events|] == t
  }

  lemma ReachMore(s: State, c: nat, a: Action, t: State)
    requires Reachable(s) && Goes(s, c, a, t)
    ensures Reachable(t)
  {
    assert StepKey(0);
    var run, events :| IsRun(run, events) && run[|events|] == s;
    var run', events' := run + [t], events + [Event(c, a)];
    forall i: nat | i < |events'| ensures StepAt(run', events', i) {
      if i < |events| {
        assert StepAt(run, events, i);
      }
    }
    assert IsRun(run', events') && run'[|events'|] == t;
  }

  lemma {:induction false} StepsReachable(s: State, n: nat, t: State)
    requires Reachable(s) && Steps(s, n, t)
    ensures Reachable(t)
    decreases n
  {
    if n > 0 {
      var c: nat, a: Action, r: State :| Goes(s, c, a, r) && Steps(r, n - 1, t);
      ReachMore(s, c, a, r);
      StepsReachable(r, n - 1, t);
    }
  }

  /** What boot reaches is the end of a run. */
  lemma ReachesIsRun(s: State, t: State)
    requires Init(s) && Reaches(s, t)
    ensures Reachable(t)
  {
    var none: seq<Event> := [];
    assert IsRun([s], none) && [s][|none|] == s;
    var n: nat :| Steps(s, n, t);
    StepsReachable(s, n, t);
  }

  /** The table at boot with slots 0 and 1 replaced, CPU 0 at cpu and the kernel locks xl. */
  function World(s: State, q0: Proc, q1: Proc, cpu: Cpu, xl: map<nat, nat>): State
    requires |s.procs| >= 2 && |s.cpus| >= 1
  {
    s.(procs := s.procs[0 := q0][1 := q1], cpus := s.cpus[0 := cpu], xlock := xl)
  }

  ghost predicate Booted(s: State) {
    Init(s) && |s.procs| >= 2 && |s.cpus| >= 1
  }

  const PROC0: Proc := Proc(RUNNABLE, Option.None, Option.None, false, Option.None, true, NewProc)
  const PROC1: Proc := Proc(UNUSED, Option.None, Option.None, false, Option.None, false, NewProc)

  /** A slot that is picked, with its lock released. */
  function Busy(q: Proc): Proc {
    q.(state := RUNNING, lock := Option.None)
  }

  lemma RunsInit(s: State)
    requires Booted(s)
    ensures Reaches(s, World(s, Busy(PROC0), PROC1, Cpu(Thread(0, Run), Option.Some(0)), map[]))
  {
    var t := Inside(s, 0, 0, Resume(NewProc), PROC0.(lock := Option.Some(0), state := RUNNING));
    var u := World(s, Busy(PROC0), PROC1, Cpu(Thread(0, Run), Option.Some(0)), map[]);
    PicksFirst(s, 0, YES, 0, 0);
    ResumeAlone(t, 0, YES, 0, NewProc);
    assert t.procs[0 := Busy(PROC0)] == u.procs;
    assert t.cpus[0 := Cpu(Thread(0, Run), Option.Some(0))] == u.cpus;
    LeadsOn(s, 0, YES, t, u);
    LeadsReaches(s, 0, YES, u);
  }

  lemma Calls(s: State, c: nat, p: nat, a: Action, t: State)
    requires Shape(s) && c < |s.cpus| && s.cpus[c].mode == Thread(p, Run) && p < |s.procs| && !a.CallYield? && DoCall(s, c, p, a) == Option.Some(t)
    ensures Reaches(s, t)
  {
    GoThread(s, c, a, p, Run, t);
    One(s, c, a, t);
    LeadsReaches(s, c, a, t);
  }

  /** init forks: slot 1 is its child. */
  lemma ForksChild(s: State)
    requires Booted(s)
    ensures Reaches(World(s, Busy(PROC0), PROC1, Cpu(Thread(0, Run), Option.Some(0)), map[]),
                    World(s, Busy(PROC0), Child(PROC1, 0), Cpu(Thread(0, Run), Option.Some(0)), map[]))
  {
    var t := World(s, Busy(PROC0), PROC1, Cpu(Thread(0, Run), Option.Some(0)), map[]);
    var t1 := At(t, 0, Thread(0, InFork(0, FLock)));
    var u := World(s, Busy(PROC0), Child(PROC1, 0), Cpu(Thread(0, Run), Option.Some(0)), map[]);
    Calls(t, 0, 0, CallFork, t1);
    ForkFrom(t1, 0, 0, 0, 1);
    assert t1.procs[1 := Child(PROC1, 0)] == u.procs;
    assert t1.cpus[0 := Cpu(Thread(0, Run), Option.Some(0))] == u.cpus;
    LeadsReaches(t1, 0, YES, u);
    ReachesOn(t, t1, u);
  }

  function Asleep0(ch: nat, x: nat): Proc {
    Slept(Busy(PROC0), Address(ch), SleepBack(ch, x))
  }

  /** init takes x and sleeps on ch. */
  lemma FallsAsleep0(s: State, ch: nat, x: nat)
    requires Booted(s)
    ensures Reaches(World(s, Busy(PROC0), Child(PROC1, 0), Cpu(Thread(0, Run), Option.Some(0)), map[]),
                    World(s, Asleep0(ch, x), Child(PROC1, 0), Cpu(Scan(1), Option.None), map[]))
  {
    var t := World(s, Busy(PROC0), Child(PROC1, 0), Cpu(Thread(0, Run), Option.Some(0)), map[]);
    var t1 := t.(xlock := map[x := 0]);
    var t2 := At(t1, 0, Thread(0, InSleep(ch, x, SWant)));
    var u := World(s, Asleep0(ch, x), Child(PROC1, 0), Cpu(Scan(1), Option.None), map[]);
    assert t.xlock[x := 0] == t1.xlock;
    Calls(t, 0, 0, TakeX(x), t1);
    Calls(t1, 0, 0, CallSleep(ch, x), t2);
    SleepAlone(t2, 0, YES, 0, ch, x);
    assert t2.procs[0 := Asleep0(ch, x)] == u.procs;
    assert t2.cpus[0 := Cpu(Scan(1), Option.None)] == u.cpus;
    assert t2.xlock - {x} == map[];
    LeadsReaches(t2, 0, YES, u);
    ReachesOn(t1, t2, u);
    ReachesOn(t, t1, u);
  }

  /** The scheduler runs the child. */
  lemma RunsChild(s: State, ch: nat, x: nat)
    requires Booted(s)
    ensures Reaches(World(s, Asleep0(ch, x), Child(PROC1, 0), Cpu(Scan(1), Option.None), map[]),
                    World(s, Asleep0(ch, x), Busy(Child(PROC1, 0)), Cpu(Thread(1, Run), Option.Some(1)), map[]))
  {
    var t := World(s, Asleep0(ch, x), Child(PROC1, 0), Cpu(Scan(1), Option.None), map[]);
    var t1 := Inside(t, 0, 1, Resume(NewProc), Child(PROC1, 0).(lock := Option.Some(0), state := RUNNING));
    var u := World(s, Asleep0(ch, x), Busy(Child(PROC1, 0)), Cpu(Thread(1, Run), Option.Some(1)), map[]);
    PicksFirst(t, 0, YES, 1, 0);
    ResumeAlone(t1, 0, YES, 1, NewProc);
    assert t1.procs[1 := Busy(Child(PROC1, 0))] == u.procs;
    assert t1.cpus[0 := Cpu(Thread(1, Run), Option.Some(1))] == u.cpus;
    LeadsOn(t, 0, YES, t1, u);
    LeadsReaches(t, 0, YES, u);
  }

  /** The child wakes whoever sleeps on ch, with x held. */
  lemma WakesInit(s: State, ch: nat, x: nat)
    requires Booted(s)
    ensures Reaches(World(s, Asleep0(ch, x), Busy(Child(PROC1, 0)), Cpu(Thread(1, Run), Option.Some(1)), map[]),
                    World(s, Asleep0(ch, x).(state := RUNNABLE), Busy(Child(PROC1, 0)), Cpu(Thread(1, Run), Option.Some(1)), map[]))
  {
    var t := World(s, Asleep0(ch, x), Busy(Child(PROC1, 0)), Cpu(Thread(1, Run), Option.Some(1)), map[]);
    var t1 := t.(xlock := map[x := 1]);
    var t2 := At(t1, 0, Thread(1, InWake(ch, x, 0, Lock)));
    var u := World(s, Asleep0(ch, x).(state := RUNNABLE), Busy(Child(PROC1, 0)), Cpu(Thread(1, Run), Option.Some(1)), map[]);
    var u1 := u.(xlock := map[x := 1]);
    assert t.xlock[x := 1] == t1.xlock;
    Calls(t, 0, 1, TakeX(x), t1);
    Calls(t1, 0, 1, CallWakeup(ch, x), t2);
    WakeAlone(t2, 0, YES, 1, ch, x, 0);
    assert WokenFrom(t2.procs, Address(ch), 0) == u.procs;
    assert t2.cpus[0 := Cpu(Thread(1, Run), Option.Some(1))] == u.cpus;
    LeadsReaches(t2, 0, YES, u1);
    assert u1.xlock - {x} == map[];
    Calls(u1, 0, 1, DropX(x), u);
    ReachesOn(t2, u1, u);
    ReachesOn(t1, t2, u);
    ReachesOn(t, t1, u);
  }

  function Zombie1(): Proc {
    Busy(Child(PROC1, 0)).(state := ZOMBIE)
  }

  /** The child exits. */
  lemma ChildExits(s: State, ch: nat, x: nat)
    requires Booted(s)
    ensures Reaches(World(s, Asleep0(ch, x).(state := RUNNABLE), Busy(Child(PROC1, 0)), Cpu(Thread(1, Run), Option.Some(1)), map[]),
                    World(s, Asleep0(ch, x).(state := RUNNABLE), Zombie1(), Cpu(Scan(NextSlot(s, 1)), Option.None), map[]))
  {
    var t := World(s, Asleep0(ch, x).(state := RUNNABLE), Busy(Child(PROC1, 0)), Cpu(Thread(1, Run), Option.Some(1)), map[]);
    var t1 := At(t, 0, Thread(1, InExit(0, XInit(Lock))));
    var u := World(s, Asleep0(ch, x).(state := RUNNABLE), Zombie1(), Cpu(Scan(NextSlot(s, 1)), Option.None), map[]);
    Calls(t, 0, 1, CallExit, t1);
    ExitAlone(t1, 0, 1, 0);
    assert Exited(t1.procs, 1, 0) == u.procs;
    assert t1.cpus[0 := Cpu(Scan(NextSlot(s, 1)), Option.None)] == u.cpus;
    LeadsReaches(t1, 0, YES, u);
    ReachesOn(t, t1, u);
  }

  function Back0(ch: nat, x: nat): Proc {
    Busy(Asleep0(ch, x)).(chan := Option.None)
  }

  /** init is run again and returns from its sleep with x. */
  lemma InitReturns(s: State, ch: nat, x: nat)
    requires Booted(s)
    ensures Reaches(World(s, Asleep0(ch, x).(state := RUNNABLE), Zombie1(), Cpu(Scan(NextSlot(s, 1)), Option.None), map[]),
                    World(s, Back0(ch, x), Zombie1(), Cpu(Thread(0, Run), Option.Some(0)), map[x := 0]))
  {
    var n, j := |s.procs|, NextSlot(s, 1);
    var d := if n == 2 then 0 else n - 2;
    var t := World(s, Asleep0(ch, x).(state := RUNNABLE), Zombie1(), Cpu(Scan(j), Option.None), map[]);
    var t1 := Inside(t, 0, 0, Resume(SleepBack(ch, x)), Asleep0(ch, x).(lock := Option.Some(0), state := RUNNING));
    var u := World(s, Back0(ch, x), Zombie1(), Cpu(Thread(0, Run), Option.Some(0)), map[x := 0]);
    assert Around(n, j, d) == 0;
    PicksFirst(t, 0, YES, j, d);
    SleepReturns(t1, 0, YES, 0, ch, x);
    assert t1.procs[0 := Back0(ch, x)] == u.procs;
    assert t1.cpus[0 := Cpu(Thread(0, Run), Option.Some(0))] == u.cpus;
    assert t1.xlock[x := 0] == u.xlock;
    LeadsOn(t, 0, YES, t1, u);
    LeadsReaches(t, 0, YES, u);
  }

  /** And waits, which frees the child. */
  lemma WaitsForChild(s: State, ch: nat, x: nat)
    requires Booted(s)
    ensures Reaches(World(s, Back0(ch, x), Zombie1(), Cpu(Thread(0, Run), Option.Some(0)), map[x := 0]),
                    World(s, Back0(ch, x), Freed(Zombie1()), Cpu(Thread(0, Run), Option.Some(0)), map[x := 0]))
  {
    var t := World(s, Back0(ch, x), Zombie1(), Cpu(Thread(0, Run), Option.Some(0)), map[x := 0]);
    var t1 := At(t, 0, Thread(0, InWait(WWant)));
    var t2 := Put(t1, 0, Thread(0, InWait(WScan(0, false))), 0, Back0(ch, x).(lock := Option.Some(0)));
    var u := World(s, Back0(ch, x), Freed(Zombie1()), Cpu(Thread(0, Run), Option.Some(0)), map[x := 0]);
    Calls(t, 0, 0, CallWait, t1);
    WaitBegins(t1, 0, 0);
    WaitAlone(t2, 0, 0, 1);
    assert t2.procs[0 := Back0(ch, x)][1 := Freed(Zombie1())] == u.procs;
    assert t2.cpus[0 := Cpu(Thread(0, Run), Option.Some(0))] == u.cpus;
    LeadsOn(t1, 0, YES, t2, u);
    LeadsReaches(t1, 0, YES, u);
    ReachesOn(t, t1, u);
  }

  /** From every boot state with two slots and a CPU, one run goes through all of it: init forks a
      child, sleeps on ch under x, is woken by the child, which then dies, returns from its sleep
      holding x, and frees the child by wait. */
  lemma LifeOfAChild(s: State, ch: nat, x: nat) returns (forked: State, asleep: State, woken: State, dead: State, back: State, freed: State)
    requires Booted(s)
    ensures Reaches(s, forked) && Reaches(forked, asleep) && Reaches(asleep, woken) && Reaches(woken, dead) && Reaches(dead, back) && Reaches(back, freed)
    ensures Reachable(forked) && Reachable(asleep) && Reachable(woken) && Reachable(dead) && Reachable(back) && Reachable(freed)
    ensures |forked.procs| == |asleep.procs| == |woken.procs| == |dead.procs| == |back.procs| == |freed.procs| == |s.procs|
    ensures |forked.cpus| == |back.cpus| == |freed.cpus| == |s.cpus|
    ensures forked.procs[1].state.RUNNABLE? && forked.procs[1].parent == Option.Some(0) && forked.cpus[0] == Cpu(Thread(0, Run), Option.Some(0))
    ensures asleep.procs[0].state.SLEEPING? && asleep.procs[0].chan == Option.Some(Address(ch)) && x !in asleep.xlock
    ensures woken.procs[0].state.RUNNABLE? && woken.procs[1].state.RUNNING?
    ensures dead.procs[1].state.ZOMBIE? && dead.procs[0].state.RUNNABLE?
    ensures back.cpus[0] == Cpu(Thread(0, Run), Option.Some(0)) && back.xlock == map[x := 0] && back.procs[0].state.RUNNING? && back.procs[0].chan.None?
    ensures freed.procs[1].state.UNUSED? && freed.procs[1].parent.None? && !freed.procs[1].kpt && freed.cpus[0].mode == Thread(0, Run)
  {
    var run0 := World(s, Busy(PROC0), PROC1, Cpu(Thread(0, Run), Option.Some(0)), map[]);
    forked := World(s, Busy(PROC0), Child(PROC1, 0), Cpu(Thread(0, Run), Option.Some(0)), map[]);
    asleep := World(s, Asleep0(ch, x), Child(PROC1, 0), Cpu(Scan(1), Option.None), map[]);
    var run1 := World(s, Asleep0(ch, x), Busy(Child(PROC1, 0)), Cpu(Thread(1, Run), Option.Some(1)), map[]);
    woken := World(s, Asleep0(ch, x).(state := RUNNABLE), Busy(Child(PROC1, 0)), Cpu(Thread(1, Run), Option.Some(1)), map[]);
    dead := World(s, Asleep0(ch, x).(state := RUNNABLE), Zombie1(), Cpu(Scan(NextSlot(s, 1)), Option.None), map[]);
    back := World(s, Back0(ch, x), Zombie1(), Cpu(Thread(0, Run), Option.Some(0)), map[x := 0]);
    freed := World(s, Back0(ch, x), Freed(Zombie1()), Cpu(Thread(0, Run), Option.Some(0)), map[x := 0]);
    RunsInit(s);
    ForksChild(s);
    FallsAsleep0(s, ch, x);
    RunsChild(s, ch, x);
    WakesInit(s, ch, x);
    ChildExits(s, ch, x);
    InitReturns(s, ch, x);
    WaitsForChild(s, ch, x);
    ReachesOn(s, run0, forked);
    ReachesOn(asleep, run1, woken);
    ReachesOn(s, forked, asleep);
    ReachesOn(s, asleep, woken);
    ReachesOn(s, woken, dead);
    ReachesOn(s, dead, back);
    ReachesOn(s, back, freed);
    ReachesIsRun(s, forked);
    ReachesIsRun(s, asleep);
    ReachesIsRun(s, woken);
    ReachesIsRun(s, dead);
    ReachesIsRun(s, back);
    ReachesIsRun(s, freed);
  }
}

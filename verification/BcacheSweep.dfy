/**
 What a bget has looked at, in every run: which buckets its sweep saw, in which order, and what it
 found there when it panics.  All of it is read off the states and events of the run.
 */
module BcacheSweep {
  import opened Common
  import opened BcacheSteps

  /** Bucket f was skipped because its lock was held, or had no free buffer under its lock. */
  datatype Look = Held(f: nat) | Empty(f: nat)

  /** p looks at bucket f in its next step: at its home bucket, or in the sweep. */
  predicate SeesHeld(s: State, p: Pid, f: nat) {
    Shape(s) && f < NBUCKETS && PcOf(s.pc, p).SweepPeek? && PcOf(s.pc, p).f == f && s.lock[f].Some?
  }

  predicate SeesEmpty(s: State, p: Pid, f: nat) {
    && Shape(s) && f < NBUCKETS && s.lock[f] == Option.Some(p) && NoFree(s, f)
    && match PcOf(s.pc, p)
       case Recycle(k) => f == Home(k)
       case SweepScan(_, g) => f == g
       case _ => false
  }

  /** The bucket a position is about to look at. */
  function Target(c: Pc): nat {
    match c
    case Recycle(k) => Home(k)
    case SweepPeek(_, f) => f
    case SweepScan(_, f) => f
    case _ => 0
  }

  /** What p has seen after one more event, given what it had seen before. */
  function Saw(looks: seq<Look>, s: State, e: Event, p: Pid): seq<Look> {
    var f := Target(PcOf(s.pc, p));
    if e.p != p then looks
    else if e.a.StartGet? then []
    else if SeesHeld(s, p, f) then looks + [Held(f)]
    else if SeesEmpty(s, p, f) then looks + [Empty(f)]
    else looks
  }

  /** What p has seen since its last bget began. */
  function Looks(run: seq<State>, events: seq<Event>, i: nat, p: Pid): seq<Look>
    requires i <= |events| < |run|
  {
    if i == 0 then [] else Saw(Looks(run, events, i - 1, p), run[i - 1], events[i - 1], p)
  }

  /** The first look is at the home bucket, and look t at the bucket t places after it. */
  predicate InOrder(looks: seq<Look>, h: nat) {
    forall t: nat :: t < |looks| ==> looks[t].f == (h + t) % NBUCKETS
  }

  /** Where a bget is, and what it has seen. */
  predicate Seen(c: Pc, looks: seq<Look>) {
    match c
    case WantHome(_) => looks == []
    case Lookup(_) => looks == []
    case Recycle(_) => looks == []
    case SweepTest(k, f) => |looks| > 0 && InOrder(looks, Home(k)) && 1 <= f <= NBUCKETS && f % NBUCKETS == (Home(k) + |looks|) % NBUCKETS
    case SweepPeek(k, f) => |looks| > 0 && InOrder(looks, Home(k)) && f == (Home(k) + |looks|) % NBUCKETS
    case SweepWait(k, f) => |looks| > 0 && InOrder(looks, Home(k)) && f == (Home(k) + |looks|) % NBUCKETS
    case SweepScan(k, f) => |looks| > 0 && InOrder(looks, Home(k)) && f == (Home(k) + |looks|) % NBUCKETS
    case DropVictim(k, f, _) => |looks| > 0 && InOrder(looks, Home(k)) && f == (Home(k) + |looks|) % NBUCKETS
    case NoBuffers(k) => InOrder(looks, Home(k)) && |looks| >= NBUCKETS
    case Panicked => |looks| >= NBUCKETS && InOrder(looks, looks[0].f)
    case _ => true
  }

  lemma NextLook(h: nat, n: nat, f: nat)
    requires h < NBUCKETS && f == (h + n) % NBUCKETS
    ensures f < NBUCKETS && (f + 1) % NBUCKETS == (h + (n + 1)) % NBUCKETS && 1 <= f + 1 <= NBUCKETS
  {
  }

  lemma BackHome(h: nat, n: nat)
    requires h < NBUCKETS && n > 0 && (h + n) % NBUCKETS == h
    ensures n >= NBUCKETS
  {
  }

  /** The positions of bget one after the other; `held` and `empty` say what a look finds. */
  predicate Follows(c: Pc, c': Pc, held: bool, empty: bool) {
    match c
    case Idle => c'.WantHome?
    case WantHome(k) => c' == Lookup(k)
    case Lookup(k) => c' == Recycle(k) || c'.DropHome?
    case Recycle(k) => if empty then c' == SweepTest(k, Home(k) + 1) else c'.DropHome?
    case SweepTest(k, f) => c' == if f == Home(k) then NoBuffers(k) else SweepPeek(k, f % NBUCKETS)
    case SweepPeek(k, f) => c' == if held then SweepTest(k, f + 1) else SweepWait(k, f)
    case SweepWait(k, f) => c' == SweepScan(k, f)
    case SweepScan(k, f) => if empty then c' == SweepTest(k, f + 1) else c'.DropVictim? && c'.k == k && c'.f == f
    case DropVictim(k, _, b) => c' == DropHome(k, b)
    case DropHome(k, b) => c' == WantBuf(k, b)
    case NoBuffers(_) => c' == Panicked
    case _ => false
  }

  lemma GetFollows(s: State, p: Pid, a: Action)
    requires Shape(s) && DoGet(s, p, a).Some? && Agrees(s.bufs, p, PcOf(s.pc, p))
    requires var c := PcOf(s.pc, p); c.Recycle? || c.SweepScan? ==> s.lock[Target(c)] == Option.Some(p)
    ensures var c := PcOf(s.pc, p);
            Follows(c, PcOf(DoGet(s, p, a).value.pc, p), SeesHeld(s, p, Target(c)), SeesEmpty(s, p, Target(c)))
  {
  }

  /** One more look, or none. */
  function Extended(looks: seq<Look>, c: Pc, held: bool, empty: bool): seq<Look> {
    if c.Idle? then [] else if held then looks + [Held(Target(c))] else if empty then looks + [Empty(Target(c))] else looks
  }

  lemma OrderKept(looks: seq<Look>, h: nat, look: Look)
    requires InOrder(looks, h) && look.f == (h + |looks|) % NBUCKETS
    ensures InOrder(looks + [look], h)
  {
  }

  lemma FollowsSeen(c: Pc, c': Pc, looks: seq<Look>, held: bool, empty: bool)
    requires Seen(c, looks) && Follows(c, c', held, empty) && (held ==> c.SweepPeek?) && (empty ==> c.Recycle? || c.SweepScan?)
    ensures Seen(c', Extended(looks, c, held, empty))
  {
    match c
    case SweepTest(k, f) =>
      if f == Home(k) {
        BackHome(Home(k), |looks|);
      }
    case SweepPeek(k, f) =>
      NextLook(Home(k), |looks|, f);
      OrderKept(looks, Home(k), Held(f));
    case SweepScan(k, f) =>
      NextLook(Home(k), |looks|, f);
      OrderKept(looks, Home(k), Empty(f));
    case Recycle(k) => NextLook(Home(k), 0, Home(k));
    case _ =>
  }

  /** p's own step inside bget. */
  lemma GetLooks(s: State, p: Pid, a: Action, looks: seq<Look>)
    requires Inv(s) && DoGet(s, p, a).Some? && Seen(PcOf(s.pc, p), looks)
    ensures Seen(PcOf(DoGet(s, p, a).value.pc, p), Saw(looks, s, Event(p, a), p))
  {
    var c := PcOf(s.pc, p);
    assert Agrees(s.bufs, p, c);
    assert c.Recycle? || c.SweepScan? ==> s.lock[Target(c)] == Option.Some(p) by {
      assert c.Recycle? || c.SweepScan? ==> Owns(c, Target(c));
    }
    assert c.Idle? <==> a.StartGet?;
    GetFollows(s, p, a);
    FollowsSeen(c, PcOf(DoGet(s, p, a).value.pc, p), looks, SeesHeld(s, p, Target(c)), SeesEmpty(s, p, Target(c)));
  }

  /** A position outside the search of bget. */
  predicate Outside(c: Pc) {
    Seen(c, []) && !c.WantHome? && !c.Lookup? && !c.Recycle?
  }

  /** Only the process that moves changes its position, and outside bget nothing is looked at. */
  lemma GetPositions(s: State, q: Pid, a: Action, p: Pid)
    requires Shape(s) && DoGet(s, q, a).Some? && p != q
    ensures PcOf(DoGet(s, q, a).value.pc, p) == PcOf(s.pc, p)
  {
  }

  lemma UsePositions(s: State, q: Pid, a: Action, p: Pid)
    requires Shape(s) && DoUse(s, q, a).Some?
    ensures var c := PcOf(DoUse(s, q, a).value.pc, p); if p != q then c == PcOf(s.pc, p) else Outside(c) && !a.StartGet?
  {
  }

  lemma ReleasePositions(s: State, q: Pid, a: Action, p: Pid)
    requires Shape(s) && DoRelease(s, q, a).Some?
    ensures var c := PcOf(DoRelease(s, q, a).value.pc, p); if p != q then c == PcOf(s.pc, p) else Outside(c) && !a.StartGet?
  {
  }

  lemma StepPositions(s: State, q: Pid, a: Action, p: Pid)
    requires Shape(s) && Do(s, q, a).Some? && (p != q || DoGet(s, q, a).None?)
    ensures var c := PcOf(Do(s, q, a).value.pc, p); if p != q then c == PcOf(s.pc, p) else Outside(c) && !a.StartGet?
  {
    if DoGet(s, q, a).Some? {
      GetPositions(s, q, a, p);
    } else if DoUse(s, q, a).Some? {
      UsePositions(s, q, a, p);
    } else {
      ReleasePositions(s, q, a, p);
    }
  }

  lemma StepSeen(s: State, e: Event, p: Pid, looks: seq<Look>)
    requires Inv(s) && Do(s, e.p, e.a).Some? && Seen(PcOf(s.pc, p), looks)
    ensures Seen(PcOf(Do(s, e.p, e.a).value.pc, p), Saw(looks, s, e, p))
  {
    if e.p == p && DoGet(s, p, e.a).Some? {
      GetLooks(s, p, e.a, looks);
    } else {
      StepPositions(s, e.p, e.a, p);
    }
  }

  /** In every run a bget looks at its home bucket first and then at the buckets after it, one by
      one; and one that has given up has looked at every bucket. */
  lemma {:induction false} LooksInOrder(run: seq<State>, events: seq<Event>, i: nat, p: Pid)
    requires IsRun(run, events) && i < |run|
    ensures Seen(PcOf(run[i].pc, p), Looks(run, events, i, p))
  {
    if i > 0 {
      LooksInOrder(run, events, i - 1, p);
      assert Seen(PcOf(run[i].pc, p), Looks(run, events, i, p)) by {
        RunKeepsInv(run, events, i - 1);
        assert StepAt(run, events, i - 1);
        StepSeen(run[i - 1], events[i - 1], p, Looks(run, events, i - 1, p));
      }
    }
  }

  /** At event j, in the bget that p is in at state i, p saw what the look says. */
  ghost predicate LookedAt(run: seq<State>, events: seq<Event>, p: Pid, look: Look, j: nat, i: nat) {
    && j < i <= |events| < |run| && events[j].p == p
    && (if look.Held? then SeesHeld(run[j], p, look.f) else SeesEmpty(run[j], p, look.f))
    && forall l: nat :: j <= l < i && events[l].p == p ==> !events[l].a.StartGet?
  }

  lemma {:induction false} LooksHappened(run: seq<State>, events: seq<Event>, i: nat, p: Pid, t: nat) returns (j: nat)
    requires i <= |events| < |run| && t < |Looks(run, events, i, p)|
    ensures LookedAt(run, events, p, Looks(run, events, i, p)[t], j, i)
  {
    if t < |Looks(run, events, i - 1, p)| {
      j := LooksHappened(run, events, i - 1, p, t);
    } else {
      j := i - 1;
    }
  }

  /** In every run a bget that panics has, for every bucket h, either seen the lock of h held by
      somebody or found no free buffer in h under that lock, and did so in this very call. */
  lemma PanicSawAll(run: seq<State>, events: seq<Event>, i: nat, p: Pid, h: nat) returns (look: Look, j: nat)
    requires IsRun(run, events) && i < |run| && (PcOf(run[i].pc, p).NoBuffers? || PcOf(run[i].pc, p).Panicked?) && h < NBUCKETS
    ensures look.f == h && LookedAt(run, events, p, look, j, i)
  {
    LooksInOrder(run, events, i, p);
    var looks := Looks(run, events, i, p);
    var first := looks[0].f;
    var t := if h >= first then h - first else h + NBUCKETS - first;
    look := looks[t];
    j := LooksHappened(run, events, i, p, t);
  }

  /** A buffer is stolen only from the first bucket of the sweep that was neither seen held nor
      found empty when its turn came. */
  lemma StealIsFirst(run: seq<State>, events: seq<Event>, i: nat, p: Pid, t: nat) returns (j: nat)
    requires IsRun(run, events) && i < |run| && PcOf(run[i].pc, p).DropVictim?
    requires t < |Looks(run, events, i, p)|
    ensures var c := PcOf(run[i].pc, p);
            && c.f == (Home(c.k) + |Looks(run, events, i, p)|) % NBUCKETS && |Looks(run, events, i, p)| > 0
            && Looks(run, events, i, p)[t].f == (Home(c.k) + t) % NBUCKETS
            && LookedAt(run, events, p, Looks(run, events, i, p)[t], j, i)
  {
    LooksInOrder(run, events, i, p);
    j := LooksHappened(run, events, i, p, t);
  }
}

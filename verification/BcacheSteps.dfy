/**
 The bucketed buffer cache as a step machine: any number of processes run bget, bread,
 bwrite, brelse, bpin and bunpin, and one step is one access to shared state.

 The unlocked read of `lock[findCount].locked` and the `acquire` that follows it are two
 steps, so another process may take the lock in between.  List order does not matter here
 (BcacheLists models it); a buffer only records which bucket's list it is on.
 */
module BcacheSteps {
  import opened Common

  type Pid = nat
  type Block = seq<bv8>

  datatype Key = Key(dev: nat, blockno: nat)

  /** `key` is (dev, blockno); `owner` holds the sleep lock; `dirty` is history: the data was
      changed by its owner and not yet given to bwrite. */
  datatype Buf = Buf(key: Key, valid: bool, refcnt: nat, data: Block, bucket: nat, owner: Option<Pid>, dirty: bool)

  /** Where a process is inside the cache code; outside of it every process is at `Idle`. */
  datatype Pc =
    | Idle
    | WantHome(k: Key)
    | Lookup(k: Key)
    | Recycle(k: Key)
    | SweepTest(k: Key, f: nat)
    | SweepPeek(k: Key, f: nat)
    | SweepWait(k: Key, f: nat)
    | SweepScan(k: Key, f: nat)
    | DropVictim(k: Key, f: nat, b: nat)
    | DropHome(k: Key, b: nat)
    | WantBuf(k: Key, b: nat)
    | CheckValid(k: Key, b: nat)
    | SetValid(k: Key, b: nat)
    | NoBuffers(k: Key)
    | Panicked
    | RelWant(b: nat, h: nat)
    | RelHold(b: nat, h: nat)
    | PinWant(b: nat, h: nat)
    | PinHold(b: nat, h: nat)
    | UnpinWant(b: nat, h: nat)
    | UnpinHold(b: nat, h: nat)
    | Drop(h: nat)

  /** The last five fields are history: `refs[b][p]` counts the references process p has on
      buffer b, `pins[b]` the pins not yet given back, `since[p]` is when p last took its home
      lock, and `sloppy` records that some buffer was released with unwritten changes. */
  datatype State = State(
    bufs: seq<Buf>,
    lock: seq<Option<Pid>>,
    disk: map<Key, Block>,
    pc: map<Pid, Pc>,
    refs: seq<multiset<Pid>>,
    pins: seq<nat>,
    since: map<Pid, nat>,
    clock: nat,
    sloppy: bool)

  datatype Action =
    | StartGet(k: Key)
    | AcquireHome
    | Hit(b: nat)
    | Miss
    | TakeHome(b: nat)
    | NoneAtHome
    | TestSweep
    | PeekLocked
    | PeekFree
    | AcquireVictim
    | Steal(b: nat)
    | NoneAtVictim
    | ReleaseVictim
    | ReleaseHome
    | AcquireSleep
    | Return
    | ReadDisk
    | MarkValid
    | Panic
    | Modify(b: nat, data: Block)
    | Write(b: nat)
    | StartRelease(b: nat)
    | AcquireForRelease
    | DecRef
    | StartPin(b: nat)
    | AcquireForPin
    | IncRef
    | StartUnpin(b: nat)
    | AcquireForUnpin
    | DecPin
    | ReleaseLock

  function Home(k: Key): (h: nat)
    ensures h < NBUCKETS
  {
    k.blockno % NBUCKETS
  }

  function PcOf(pc: map<Pid, Pc>, p: Pid): Pc {
    if p in pc then pc[p] else Idle
  }

  function Since(s: State, p: Pid): nat {
    if p in s.since then s.since[p] else 0
  }

  /** What the disk holds for a block; a block never written reads as empty. */
  function OnDisk(disk: map<Key, Block>, k: Key): Block {
    if k in disk then disk[k] else []
  }

  // ---------------------------------------------------------------------------------------
  // Steps
  // ---------------------------------------------------------------------------------------

  function Goto(s: State, p: Pid, c: Pc): State {
    s.(pc := s.pc[p := c])
  }

  predicate Shape(s: State) {
    && |s.lock| == NBUCKETS
    && |s.refs| == |s.bufs|
    && |s.pins| == |s.bufs|
  }

  /** No buffer on bucket h's list carries key k, respectively is unreferenced. */
  predicate NoHit(s: State, h: nat, k: Key) {
    forall b :: 0 <= b < |s.bufs| && s.bufs[b].bucket == h ==> s.bufs[b].key != k
  }

  predicate NoFree(s: State, h: nat) {
    forall b :: 0 <= b < |s.bufs| && s.bufs[b].bucket == h ==> s.bufs[b].refcnt != 0
  }

  /** Assign an unreferenced buffer to key k on k's home list, with one reference for p. */
  function Rekey(s: State, p: Pid, b: nat, k: Key): State
    requires Shape(s) && b < |s.bufs|
  {
    s.(bufs := s.bufs[b := s.bufs[b].(key := k, valid := false, refcnt := 1, bucket := Home(k))],
       refs := s.refs[b := s.refs[b] + multiset{p}])
  }

  function AcquireAt(s: State, p: Pid, h: nat, c: Pc): Option<State>
    requires Shape(s)
  {
    if h < NBUCKETS && s.lock[h].None?
    then Some(Goto(s, p, c).(lock := s.lock[h := Option.Some(p)]))
    else None
  }

  function ReleaseAt(s: State, p: Pid, h: nat, c: Pc): Option<State>
    requires Shape(s)
  {
    if h < NBUCKETS then Some(Goto(s, p, c).(lock := s.lock[h := Option.None])) else None
  }

  /** bget up to the sleep lock (bio.c:63-128). */
  function DoGet(s: State, p: Pid, a: Action): Option<State>
    requires Shape(s)
  {
    match (a, PcOf(s.pc, p))
    case (StartGet(k), Idle) =>
      if k.dev != 0 then Some(Goto(s, p, WantHome(k))) else None
    case (AcquireHome, WantHome(k)) =>
      var r := AcquireAt(s, p, Home(k), Lookup(k));
      if r.Some? then Some(r.value.(since := s.since[p := s.clock], clock := s.clock + 1)) else None
    case (Hit(b), Lookup(k)) =>
      if b < |s.bufs| && s.bufs[b].bucket == Home(k) && s.bufs[b].key == k
      then Some(Goto(s, p, DropHome(k, b)).(
                  bufs := s.bufs[b := s.bufs[b].(refcnt := s.bufs[b].refcnt + 1)],
                  refs := s.refs[b := s.refs[b] + multiset{p}]))
      else None
    case (Miss, Lookup(k)) =>
      if NoHit(s, Home(k), k) then Some(Goto(s, p, Recycle(k))) else None
    case (TakeHome(b), Recycle(k)) =>
      if b < |s.bufs| && s.bufs[b].bucket == Home(k) && s.bufs[b].refcnt == 0
      then Some(Goto(Rekey(s, p, b, k), p, DropHome(k, b)))
      else None
    case (NoneAtHome, Recycle(k)) =>
      if NoFree(s, Home(k)) then Some(Goto(s, p, SweepTest(k, Home(k) + 1))) else None
    case (TestSweep, SweepTest(k, f)) =>
      Some(Goto(s, p, if f == Home(k) then NoBuffers(k) else SweepPeek(k, f % NBUCKETS)))
    case (PeekLocked, SweepPeek(k, f)) =>
      if f < NBUCKETS && s.lock[f].Some? then Some(Goto(s, p, SweepTest(k, f + 1))) else None
    case (PeekFree, SweepPeek(k, f)) =>
      if f < NBUCKETS && s.lock[f].None? then Some(Goto(s, p, SweepWait(k, f))) else None
    case (AcquireVictim, SweepWait(k, f)) =>
      AcquireAt(s, p, f, SweepScan(k, f))
    case (Steal(b), SweepScan(k, f)) =>
      if b < |s.bufs| && s.bufs[b].bucket == f && s.bufs[b].refcnt == 0
      then Some(Goto(Rekey(s, p, b, k), p, DropVictim(k, f, b)))
      else None
    case (NoneAtVictim, SweepScan(k, f)) =>
      if NoFree(s, f) then ReleaseAt(s, p, f, SweepTest(k, f + 1)) else None
    case (ReleaseVictim, DropVictim(k, f, b)) =>
      ReleaseAt(s, p, f, DropHome(k, b))
    case (ReleaseHome, DropHome(k, b)) =>
      ReleaseAt(s, p, Home(k), WantBuf(k, b))
    case (Panic, NoBuffers(k)) =>
      ReleaseAt(s, p, Home(k), Panicked)
    case _ => None
  }

  /** The sleep lock, bread's disk read, and what a client does with a buffer it holds
      (bio.c:77, 130-151). */
  function DoUse(s: State, p: Pid, a: Action): Option<State>
    requires Shape(s)
  {
    match (a, PcOf(s.pc, p))
    case (AcquireSleep, WantBuf(k, b)) =>
      if b < |s.bufs| && s.bufs[b].owner.None?
      then Some(Goto(s, p, CheckValid(k, b)).(bufs := s.bufs[b := s.bufs[b].(owner := Option.Some(p))]))
      else None
    case (Return, CheckValid(k, b)) =>
      if b < |s.bufs| && s.bufs[b].valid then Some(Goto(s, p, Idle)) else None
    case (ReadDisk, CheckValid(k, b)) =>
      if b < |s.bufs| && !s.bufs[b].valid
      then Some(Goto(s, p, SetValid(k, b)).(
                  bufs := s.bufs[b := s.bufs[b].(data := OnDisk(s.disk, s.bufs[b].key))]))
      else None
    case (MarkValid, SetValid(k, b)) =>
      if b < |s.bufs|
      then Some(Goto(s, p, Idle).(bufs := s.bufs[b := s.bufs[b].(valid := true)]))
      else None
    case (Modify(b, d), Idle) =>
      if b < |s.bufs| && s.bufs[b].owner == Option.Some(p)
      then Some(s.(bufs := s.bufs[b := s.bufs[b].(data := d, dirty := true)]))
      else None
    case (Write(b), Idle) =>
      if b < |s.bufs| && s.bufs[b].owner == Option.Some(p)
      then Some(s.(disk := s.disk[s.bufs[b].key := s.bufs[b].data],
                   bufs := s.bufs[b := s.bufs[b].(dirty := false)]))
      else None
    case _ => None
  }

  /** brelse, bpin and bunpin (bio.c:155-193).  A client pins only a buffer it holds and gives
      back only a pin that exists; the pin travels with the process while bunpin runs. */
  function DoRelease(s: State, p: Pid, a: Action): Option<State>
    requires Shape(s)
  {
    match (a, PcOf(s.pc, p))
    case (StartRelease(b), Idle) =>
      if b < |s.bufs| && s.bufs[b].owner == Option.Some(p)
      then Some(Goto(s, p, RelWant(b, Home(s.bufs[b].key))).(
                  bufs := s.bufs[b := s.bufs[b].(owner := Option.None)],
                  sloppy := s.sloppy || s.bufs[b].dirty))
      else None
    case (AcquireForRelease, RelWant(b, h)) => AcquireAt(s, p, h, RelHold(b, h))
    case (DecRef, RelHold(b, h)) =>
      if b < |s.bufs| && s.bufs[b].refcnt > 0
      then Some(Goto(s, p, Drop(h)).(
                  bufs := s.bufs[b := s.bufs[b].(refcnt := s.bufs[b].refcnt - 1,
                                                 bucket := if s.bufs[b].refcnt == 1 then h else s.bufs[b].bucket)],
                  refs := s.refs[b := s.refs[b] - multiset{p}]))
      else None
    case (StartPin(b), Idle) =>
      if b < |s.bufs| && s.bufs[b].owner == Option.Some(p)
      then Some(Goto(s, p, PinWant(b, Home(s.bufs[b].key))))
      else None
    case (AcquireForPin, PinWant(b, h)) => AcquireAt(s, p, h, PinHold(b, h))
    case (IncRef, PinHold(b, h)) =>
      if b < |s.bufs|
      then Some(Goto(s, p, Drop(h)).(
                  bufs := s.bufs[b := s.bufs[b].(refcnt := s.bufs[b].refcnt + 1)],
                  pins := s.pins[b := s.pins[b] + 1]))
      else None
    case (StartUnpin(b), Idle) =>
      if b < |s.bufs| && s.pins[b] > 0
      then Some(Goto(s, p, UnpinWant(b, Home(s.bufs[b].key))).(
                  refs := s.refs[b := s.refs[b] + multiset{p}],
                  pins := s.pins[b := s.pins[b] - 1]))
      else None
    case (AcquireForUnpin, UnpinWant(b, h)) => AcquireAt(s, p, h, UnpinHold(b, h))
    case (DecPin, UnpinHold(b, h)) =>
      if b < |s.bufs| && s.bufs[b].refcnt > 0
      then Some(Goto(s, p, Drop(h)).(
                  bufs := s.bufs[b := s.bufs[b].(refcnt := s.bufs[b].refcnt - 1)],
                  refs := s.refs[b := s.refs[b] - multiset{p}]))
      else None
    case (ReleaseLock, Drop(h)) => ReleaseAt(s, p, h, Idle)
    case _ => None
  }

  function Do(s: State, p: Pid, a: Action): Option<State>
    requires Shape(s)
  {
    if DoGet(s, p, a).Some? then DoGet(s, p, a)
    else if DoUse(s, p, a).Some? then DoUse(s, p, a)
    else DoRelease(s, p, a)
  }

  /** binit (bio.c:38-58): every buffer is unassigned, on some list, and nothing is locked. */
  predicate Init(s: State) {
    && Shape(s)
    && (forall h :: 0 <= h < NBUCKETS ==> s.lock[h].None?)
    && (forall b :: 0 <= b < |s.bufs| ==>
          var f := s.bufs[b];
          f.key == Key(0, 0) && !f.valid && f.refcnt == 0 && f.bucket < NBUCKETS && f.owner.None? && !f.dirty)
    && (forall b :: 0 <= b < |s.bufs| ==> s.refs[b] == multiset{} && s.pins[b] == 0)
    && s.pc == map[] && s.since == map[] && s.clock == 0 && !s.sloppy
  }

  // ---------------------------------------------------------------------------------------
  // Invariant
  // ---------------------------------------------------------------------------------------

  /** Bucket locks a process holds by its position in the code. */
  predicate Owns(c: Pc, h: nat) {
    match c
    case Lookup(k) => h == Home(k)
    case Recycle(k) => h == Home(k)
    case SweepTest(k, _) => h == Home(k)
    case SweepPeek(k, _) => h == Home(k)
    case SweepWait(k, _) => h == Home(k)
    case SweepScan(k, f) => h == Home(k) || h == f
    case DropVictim(k, f, _) => h == Home(k) || h == f
    case DropHome(k, _) => h == Home(k)
    case NoBuffers(k) => h == Home(k)
    case RelHold(_, g) => h == g
    case PinHold(_, g) => h == g
    case UnpinHold(_, g) => h == g
    case Drop(g) => h == g
    case _ => false
  }

  /** The position names a reference the process has on buffer b besides owning its sleep lock. */
  predicate Carries(c: Pc, b: nat) {
    match c
    case DropVictim(_, _, x) => b == x
    case DropHome(_, x) => b == x
    case WantBuf(_, x) => b == x
    case RelWant(x, _) => b == x
    case RelHold(x, _) => b == x
    case UnpinWant(x, _) => b == x
    case UnpinHold(x, _) => b == x
    case _ => false
  }

  function Tokens(s: State, p: Pid, b: nat): nat
    requires b < |s.bufs|
  {
    (if s.bufs[b].owner == Option.Some(p) then 1 else 0) + (if Carries(PcOf(s.pc, p), b) then 1 else 0)
  }

  ghost predicate LockInv(s: State)
    requires Shape(s)
  {
    forall p: Pid, h: nat {:trigger Owns(PcOf(s.pc, p), h)} ::
      h < NBUCKETS ==> (s.lock[h] == Option.Some(p) <==> Owns(PcOf(s.pc, p), h))
  }

  ghost predicate RefInv(s: State)
    requires Shape(s)
  {
    && (forall b: nat, p: Pid {:trigger s.refs[b][p]} :: b < |s.bufs| ==> s.refs[b][p] == Tokens(s, p, b))
    && (forall b: nat :: b < |s.bufs| ==> s.bufs[b].refcnt == |s.refs[b]| + s.pins[b])
  }

  /** The process searched its home list for this key, found nothing, and still has the lock. */
  predicate Searched(c: Pc, k: Key) {
    match c
    case Recycle(x) => k == x
    case SweepTest(x, _) => k == x
    case SweepPeek(x, _) => k == x
    case SweepWait(x, _) => k == x
    case SweepScan(x, _) => k == x
    case _ => false
  }

  /** What a position in the code says about the key asked for and the buffer chosen. */
  predicate Agrees(bufs: seq<Buf>, p: Pid, c: Pc) {
    match c
    case WantHome(k) => k.dev != 0
    case Lookup(k) => k.dev != 0
    case Recycle(k) => k.dev != 0
    case SweepTest(k, f) => k.dev != 0
    case SweepPeek(k, f) => k.dev != 0 && f < NBUCKETS
    case SweepWait(k, f) => k.dev != 0 && f < NBUCKETS && f != Home(k)
    case SweepScan(k, f) => k.dev != 0 && f < NBUCKETS && f != Home(k)
    case DropVictim(k, f, b) => f < NBUCKETS && f != Home(k) && b < |bufs| && bufs[b].key == k
    case DropHome(k, b) => b < |bufs| && bufs[b].key == k
    case WantBuf(k, b) => b < |bufs| && bufs[b].key == k
    case CheckValid(k, b) => b < |bufs| && bufs[b].key == k && bufs[b].owner == Option.Some(p)
    case SetValid(k, b) => b < |bufs| && bufs[b].key == k && bufs[b].owner == Option.Some(p)
    case RelWant(b, h) => b < |bufs| && h == Home(bufs[b].key)
    case RelHold(b, h) => b < |bufs| && h == Home(bufs[b].key)
    case PinWant(b, h) => b < |bufs| && h == Home(bufs[b].key) && bufs[b].owner == Option.Some(p)
    case PinHold(b, h) => b < |bufs| && h == Home(bufs[b].key) && bufs[b].owner == Option.Some(p)
    case UnpinWant(b, h) => b < |bufs| && h == Home(bufs[b].key)
    case UnpinHold(b, h) => b < |bufs| && h == Home(bufs[b].key)
    case Drop(h) => h < NBUCKETS
    case _ => true
  }

  /** At most one buffer per assigned key, every assigned buffer on its home list. */
  ghost predicate KeyInv(s: State)
    requires Shape(s)
  {
    && (forall b: nat, c: nat :: b < |s.bufs| && c < |s.bufs| && s.bufs[b].key == s.bufs[c].key && s.bufs[b].key.dev != 0
                                 ==> b == c)
    && (forall b: nat :: b < |s.bufs| && s.bufs[b].key.dev != 0 ==> s.bufs[b].bucket == Home(s.bufs[b].key))
    && (forall b: nat :: b < |s.bufs| && s.bufs[b].refcnt > 0 ==> s.bufs[b].key.dev != 0)
    && (forall b: nat, p: Pid :: b < |s.bufs| ==> !Searched(PcOf(s.pc, p), s.bufs[b].key))
    && (forall p: Pid :: Agrees(s.bufs, p, PcOf(s.pc, p)))
  }

  /** The process holds h as its home lock while it looks for a buffer. */
  predicate AtHome(c: Pc, h: nat) {
    match c
    case Lookup(k) => h == Home(k)
    case Recycle(k) => h == Home(k)
    case SweepTest(k, _) => h == Home(k)
    case SweepPeek(k, _) => h == Home(k)
    case SweepWait(k, _) => h == Home(k)
    case SweepScan(k, _) => h == Home(k)
    case _ => false
  }

  /** A process waiting to steal saw the lock free after taking its own home lock, so a home
      holder in its way took that lock later. */
  ghost predicate TimeInv(s: State) {
    && (forall p: Pid, h: nat :: AtHome(PcOf(s.pc, p), h) ==> Since(s, p) < s.clock)
    && (forall p: Pid, q: Pid ::
          PcOf(s.pc, p).SweepWait? && AtHome(PcOf(s.pc, q), PcOf(s.pc, p).f) ==> Since(s, p) < Since(s, q))
  }

  ghost predicate Inv(s: State) {
    Shape(s) && LockInv(s) && RefInv(s) && KeyInv(s) && TimeInv(s)
  }

  // ---------------------------------------------------------------------------------------
  // What a step has to respect for each part of the invariant to survive it
  // ---------------------------------------------------------------------------------------

  lemma OnlyOneMoves(pc: map<Pid, Pc>, p: Pid, c: Pc)
    ensures forall q: Pid {:trigger PcOf(pc[p := c], q)} :: PcOf(pc[p := c], q) == if q == p then c else PcOf(pc, q)
  {
  }

  /** Locks change hands only to or from the moving process, as its new position says. */
  lemma LocksFollow(s: State, t: State, p: Pid, c: Pc)
    requires Shape(s) && Shape(t) && LockInv(s)
    requires t.pc == s.pc[p := c]
    requires forall h: nat :: h < NBUCKETS ==> (t.lock[h] == Option.Some(p) <==> Owns(c, h))
    requires forall h: nat, q: Pid :: h < NBUCKETS && q != p ==> (t.lock[h] == Option.Some(q) <==> s.lock[h] == Option.Some(q))
    ensures LockInv(t)
  {
    OnlyOneMoves(s.pc, p, c);
  }

  /** Only buffer b's references change, and only those of the moving process. */
  lemma RefsFollow(s: State, t: State, p: Pid, c: Pc, b: nat)
    requires Shape(s) && Shape(t) && RefInv(s) && |t.bufs| == |s.bufs|
    requires t.pc == s.pc[p := c]
    requires forall x: nat :: x < |s.bufs| && x != b ==> t.bufs[x] == s.bufs[x] && t.refs[x] == s.refs[x] && t.pins[x] == s.pins[x]
    requires forall x: nat :: x < |s.bufs| && x != b ==> (Carries(c, x) <==> Carries(PcOf(s.pc, p), x))
    requires b < |s.bufs| ==>
               && (forall q: Pid :: q != p ==> t.refs[b][q] == s.refs[b][q])
               && (forall q: Pid :: q != p ==> (t.bufs[b].owner == Option.Some(q) <==> s.bufs[b].owner == Option.Some(q)))
               && t.refs[b][p] == Tokens(t, p, b)
               && t.bufs[b].refcnt == |t.refs[b]| + t.pins[b]
    ensures RefInv(t)
  {
    OnlyOneMoves(s.pc, p, c);
    forall x: nat, q: Pid | x < |t.bufs| ensures t.refs[x][q] == Tokens(t, q, x) {
      assert s.refs[x][q] == Tokens(s, q, x);
    }
  }

  /** Only buffer b changes, it keeps its key, and the moving process tells the truth. */
  lemma KeysFollow(s: State, t: State, p: Pid, c: Pc, b: nat)
    requires Shape(s) && Shape(t) && KeyInv(s) && |t.bufs| == |s.bufs|
    requires t.pc == s.pc[p := c]
    requires forall x: nat :: x < |s.bufs| && x != b ==> t.bufs[x] == s.bufs[x]
    requires b < |s.bufs| ==>
               && t.bufs[b].key == s.bufs[b].key
               && (t.bufs[b].bucket == s.bufs[b].bucket || t.bufs[b].bucket == Home(t.bufs[b].key))
               && (t.bufs[b].refcnt > 0 ==> t.bufs[b].key.dev != 0)
               && (forall q: Pid :: q != p ==> (t.bufs[b].owner == Option.Some(q) <==> s.bufs[b].owner == Option.Some(q)))
    requires Agrees(t.bufs, p, c)
    requires forall x: nat :: x < |s.bufs| ==> !Searched(c, s.bufs[x].key)
    ensures KeyInv(t)
  {
    OnlyOneMoves(s.pc, p, c);
    forall q: Pid ensures Agrees(t.bufs, q, PcOf(t.pc, q)) {
      assert Agrees(s.bufs, q, PcOf(s.pc, q));
    }
    forall x: nat, q: Pid | x < |t.bufs| ensures !Searched(PcOf(t.pc, q), t.bufs[x].key) {
      assert !Searched(PcOf(s.pc, q), s.bufs[x].key);
    }
    forall x: nat, y: nat | x < |t.bufs| && y < |t.bufs| && t.bufs[x].key == t.bufs[y].key && t.bufs[x].key.dev != 0
      ensures x == y
    {
      assert s.bufs[x].key == s.bufs[y].key;
    }
  }

  /** No new home holder appears, and a process that starts to wait saw the lock free. */
  lemma TimesFollow(s: State, t: State, p: Pid, c: Pc)
    requires TimeInv(s)
    requires t.pc == s.pc[p := c] && t.since == s.since && t.clock == s.clock
    requires forall h: nat :: AtHome(c, h) ==> AtHome(PcOf(s.pc, p), h)
    requires c.SweepWait? ==> forall q: Pid :: !AtHome(PcOf(t.pc, q), c.f)
    ensures TimeInv(t)
  {
    OnlyOneMoves(s.pc, p, c);
    forall q: Pid ensures Since(t, q) == Since(s, q) {}
    forall q: Pid, h: nat | AtHome(PcOf(t.pc, q), h) ensures Since(t, q) < t.clock {
      assert AtHome(PcOf(s.pc, q), h);
    }
    forall q: Pid, r: Pid | PcOf(t.pc, q).SweepWait? && AtHome(PcOf(t.pc, r), PcOf(t.pc, q).f)
      ensures Since(t, q) < Since(t, r)
    {
      if q != p {
        assert AtHome(PcOf(s.pc, r), PcOf(s.pc, q).f);
      }
    }
  }

  /** Nobody refers to an unreferenced buffer. */
  lemma FreeIsUnused(s: State, b: nat, q: Pid)
    requires Shape(s) && RefInv(s) && b < |s.bufs| && s.bufs[b].refcnt == 0
    ensures s.refs[b] == multiset{} && s.pins[b] == 0
    ensures Tokens(s, q, b) == 0
  {
    assert s.refs[b][q] == Tokens(s, q, b);
  }

  /** Two processes never hold the same bucket lock. */
  lemma OneHolder(s: State, p: Pid, q: Pid, h: nat)
    requires Shape(s) && LockInv(s) && h < NBUCKETS && Owns(PcOf(s.pc, p), h) && Owns(PcOf(s.pc, q), h)
    ensures p == q
  {
  }

  lemma FreeLockHasNoHome(s: State, h: nat, q: Pid)
    requires Shape(s) && LockInv(s) && h < NBUCKETS && s.lock[h].None?
    ensures !AtHome(PcOf(s.pc, q), h)
  {
    assert s.lock[h] == Option.Some(q) <==> Owns(PcOf(s.pc, q), h);
  }

  lemma RekeyKeepsKeys(s: State, t: State, p: Pid, b: nat, k: Key, c: Pc)
    requires Inv(s) && Shape(t) && b < |s.bufs| && s.bufs[b].refcnt == 0
    requires Searched(PcOf(s.pc, p), k)
    requires t.pc == s.pc[p := c] && t.bufs == Rekey(s, p, b, k).bufs
    requires forall x: Key :: !Searched(c, x)
    requires Agrees(t.bufs, p, c)
    ensures KeyInv(t)
  {
    OnlyOneMoves(s.pc, p, c);
    assert k.dev != 0 by { assert Agrees(s.bufs, p, PcOf(s.pc, p)); }
    forall q: Pid ensures Agrees(t.bufs, q, PcOf(t.pc, q)) {
      assert Agrees(s.bufs, q, PcOf(s.pc, q));
      FreeIsUnused(s, b, q);
    }
    forall x: nat, q: Pid | x < |t.bufs| ensures !Searched(PcOf(t.pc, q), t.bufs[x].key) {
      assert !Searched(PcOf(s.pc, q), s.bufs[x].key);
      if x == b && q != p && Searched(PcOf(s.pc, q), k) {
        OneHolder(s, p, q, Home(k));
      }
    }
    forall x: nat, y: nat | x < |t.bufs| && y < |t.bufs| && t.bufs[x].key == t.bufs[y].key && t.bufs[x].key.dev != 0
      ensures x == y
    {
      assert !Searched(PcOf(s.pc, p), s.bufs[x].key) && !Searched(PcOf(s.pc, p), s.bufs[y].key);
    }
  }

  /** Taking the home lock is the newest event so far. */
  lemma AcquireHomeKeepsTimes(s: State, t: State, p: Pid, k: Key)
    requires TimeInv(s) && PcOf(s.pc, p) == WantHome(k)
    requires t.pc == s.pc[p := Lookup(k)] && t.since == s.since[p := s.clock] && t.clock == s.clock + 1
    ensures TimeInv(t)
  {
    OnlyOneMoves(s.pc, p, Lookup(k));
    forall q: Pid ensures Since(t, q) == if q == p then s.clock else Since(s, q) {}
    forall q: Pid, h: nat | AtHome(PcOf(t.pc, q), h) ensures Since(t, q) < t.clock {
      assert q != p ==> AtHome(PcOf(s.pc, q), h);
    }
    forall q: Pid, r: Pid | PcOf(t.pc, q).SweepWait? && AtHome(PcOf(t.pc, r), PcOf(t.pc, q).f)
      ensures Since(t, q) < Since(t, r)
    {
      assert AtHome(PcOf(s.pc, q), Home(PcOf(s.pc, q).k));
      assert r != p ==> AtHome(PcOf(s.pc, r), PcOf(s.pc, q).f);
    }
  }

  /** Steps that change no buffer, no reference and no key. */
  lemma PlainStep(s: State, t: State, p: Pid, c: Pc)
    requires Inv(s) && Shape(t)
    requires t.bufs == s.bufs && t.refs == s.refs && t.pins == s.pins && t.pc == s.pc[p := c]
    requires forall x: nat :: Carries(c, x) <==> Carries(PcOf(s.pc, p), x)
    requires Agrees(s.bufs, p, c)
    requires forall x: nat :: x < |s.bufs| ==> !Searched(c, s.bufs[x].key)
    requires forall h: nat :: h < NBUCKETS ==> (t.lock[h] == Option.Some(p) <==> Owns(c, h))
    requires forall h: nat, q: Pid :: h < NBUCKETS && q != p ==> (t.lock[h] == Option.Some(q) <==> s.lock[h] == Option.Some(q))
    requires TimeInv(t)
    ensures Inv(t)
  {
    LocksFollow(s, t, p, c);
    RefsFollow(s, t, p, c, |s.bufs|);
    KeysFollow(s, t, p, c, |s.bufs|);
  }

  lemma LookupSteps(s: State, p: Pid, a: Action)
    requires Inv(s) && DoGet(s, p, a).Some?
    requires a.StartGet? || a.AcquireHome? || a.Miss? || a.NoneAtHome? || a.TestSweep? || a.PeekLocked?
    ensures Inv(DoGet(s, p, a).value)
  {
    var t := DoGet(s, p, a).value;
    var c := PcOf(t.pc, p);
    assert Agrees(s.bufs, p, PcOf(s.pc, p));
    if a.AcquireHome? {
      AcquireHomeKeepsTimes(s, t, p, c.k);
    } else {
      TimesFollow(s, t, p, c);
    }
    forall x: nat | x < |s.bufs| ensures !Searched(c, s.bufs[x].key) {
      assert !Searched(PcOf(s.pc, p), s.bufs[x].key);
    }
    forall h: nat | h < NBUCKETS ensures t.lock[h] == Option.Some(p) <==> Owns(c, h) {
      assert s.lock[h] == Option.Some(p) <==> Owns(PcOf(s.pc, p), h);
    }
    PlainStep(s, t, p, c);
  }

  lemma SweepSteps(s: State, p: Pid, a: Action)
    requires Inv(s) && DoGet(s, p, a).Some?
    requires a.PeekFree? || a.AcquireVictim? || a.NoneAtVictim? || a.ReleaseVictim? || a.ReleaseHome? || a.Panic?
    ensures Inv(DoGet(s, p, a).value)
  {
    var t := DoGet(s, p, a).value;
    var c := PcOf(t.pc, p);
    OnlyOneMoves(s.pc, p, c);
    assert Agrees(s.bufs, p, PcOf(s.pc, p));
    if a.PeekFree? {
      assert Owns(PcOf(s.pc, p), Home(c.k));
      forall q: Pid ensures !AtHome(PcOf(t.pc, q), c.f) {
        FreeLockHasNoHome(s, c.f, q);
      }
    }
    TimesFollow(s, t, p, c);
    forall x: nat | x < |s.bufs| ensures !Searched(c, s.bufs[x].key) {
      assert !Searched(PcOf(s.pc, p), s.bufs[x].key);
    }
    forall h: nat | h < NBUCKETS ensures t.lock[h] == Option.Some(p) <==> Owns(c, h) {
      assert s.lock[h] == Option.Some(p) <==> Owns(PcOf(s.pc, p), h);
    }
    forall h: nat, q: Pid | h < NBUCKETS && q != p
      ensures t.lock[h] == Option.Some(q) <==> s.lock[h] == Option.Some(q)
    {
      assert s.lock[h] == Option.Some(p) <==> Owns(PcOf(s.pc, p), h);
    }
    PlainStep(s, t, p, c);
  }

  lemma HitStep(s: State, p: Pid, b: nat)
    requires Inv(s) && DoGet(s, p, Hit(b)).Some?
    ensures Inv(DoGet(s, p, Hit(b)).value)
  {
    var t := DoGet(s, p, Hit(b)).value;
    var c := PcOf(t.pc, p);
    assert Agrees(s.bufs, p, PcOf(s.pc, p));
    assert s.refs[b][p] == Tokens(s, p, b);
    forall h: nat | h < NBUCKETS ensures t.lock[h] == Option.Some(p) <==> Owns(c, h) {
      assert s.lock[h] == Option.Some(p) <==> Owns(PcOf(s.pc, p), h);
    }
    LocksFollow(s, t, p, c);
    RefsFollow(s, t, p, c, b);
    KeysFollow(s, t, p, c, b);
    TimesFollow(s, t, p, c);
  }

  lemma AssignStep(s: State, p: Pid, a: Action)
    requires Inv(s) && DoGet(s, p, a).Some? && (a.TakeHome? || a.Steal?)
    ensures Inv(DoGet(s, p, a).value)
  {
    var t := DoGet(s, p, a).value;
    var c := PcOf(t.pc, p);
    assert Agrees(s.bufs, p, PcOf(s.pc, p));
    FreeIsUnused(s, a.b, p);
    forall h: nat | h < NBUCKETS ensures t.lock[h] == Option.Some(p) <==> Owns(c, h) {
      assert s.lock[h] == Option.Some(p) <==> Owns(PcOf(s.pc, p), h);
    }
    LocksFollow(s, t, p, c);
    RefsFollow(s, t, p, c, a.b);
    RekeyKeepsKeys(s, t, p, a.b, c.k, c);
    TimesFollow(s, t, p, c);
  }

  lemma GetStep(s: State, p: Pid, a: Action)
    requires Inv(s) && DoGet(s, p, a).Some?
    ensures Inv(DoGet(s, p, a).value)
  {
    if a.Hit? {
      HitStep(s, p, a.b);
    } else if a.TakeHome? || a.Steal? {
      AssignStep(s, p, a);
    } else if a.PeekFree? || a.AcquireVictim? || a.NoneAtVictim? || a.ReleaseVictim? || a.ReleaseHome? || a.Panic? {
      SweepSteps(s, p, a);
    } else {
      LookupSteps(s, p, a);
    }
  }

  /** Steps that change one buffer but not its key, nor any bucket lock or home. */
  lemma BufStep(s: State, t: State, p: Pid, c: Pc, b: nat)
    requires Inv(s) && Shape(t) && |t.bufs| == |s.bufs| && b < |s.bufs|
    requires t.pc == s.pc[p := c] && t.lock == s.lock && t.since == s.since && t.clock == s.clock
    requires t.bufs == s.bufs[b := t.bufs[b]] && t.refs == s.refs[b := t.refs[b]] && t.pins == s.pins[b := t.pins[b]]
    requires forall h: nat :: Owns(c, h) <==> Owns(PcOf(s.pc, p), h)
    requires forall h: nat :: !AtHome(c, h)
    requires !c.SweepWait?
    requires forall k: Key :: !Searched(c, k)
    requires Agrees(t.bufs, p, c)
    requires forall x: nat :: x != b ==> (Carries(c, x) <==> Carries(PcOf(s.pc, p), x))
    requires t.bufs[b].key == s.bufs[b].key
    requires t.bufs[b].bucket == s.bufs[b].bucket || t.bufs[b].bucket == Home(t.bufs[b].key)
    requires t.bufs[b].refcnt > 0 ==> s.bufs[b].refcnt > 0
    requires forall q: Pid :: q != p ==> t.refs[b][q] == s.refs[b][q]
    requires forall q: Pid :: q != p ==> (t.bufs[b].owner == Option.Some(q) <==> s.bufs[b].owner == Option.Some(q))
    requires t.refs[b][p] == Tokens(t, p, b)
    requires t.bufs[b].refcnt == |t.refs[b]| + t.pins[b]
    ensures Inv(t)
  {
    LocksFollow(s, t, p, c);
    RefsFollow(s, t, p, c, b);
    KeysFollow(s, t, p, c, b);
    TimesFollow(s, t, p, c);
  }

  lemma ReadSteps(s: State, p: Pid, a: Action)
    requires Inv(s) && DoUse(s, p, a).Some? && !a.Modify? && !a.Write?
    ensures Inv(DoUse(s, p, a).value)
  {
    var t := DoUse(s, p, a).value;
    var b := PcOf(s.pc, p).b;
    assert Agrees(s.bufs, p, PcOf(s.pc, p));
    assert s.refs[b][p] == Tokens(s, p, b);
    BufStep(s, t, p, PcOf(t.pc, p), b);
  }

  lemma WriteSteps(s: State, p: Pid, a: Action)
    requires Inv(s) && DoUse(s, p, a).Some? && (a.Modify? || a.Write?)
    ensures Inv(DoUse(s, p, a).value)
  {
    var t := DoUse(s, p, a).value;
    var t' := t.(pc := s.pc[p := Idle]);
    assert s.refs[a.b][p] == Tokens(s, p, a.b);
    BufStep(s, t', p, Idle, a.b);
    OnlyOneMoves(s.pc, p, Idle);
    forall q: Pid ensures PcOf(t.pc, q) == PcOf(t'.pc, q) {}
    SamePositions(t', t);
  }

  lemma SamePositions(s: State, t: State)
    requires Inv(s) && s == t.(pc := s.pc)
    requires forall q: Pid :: PcOf(t.pc, q) == PcOf(s.pc, q)
    ensures Inv(t)
  {
    forall b: nat, p: Pid | b < |t.bufs| ensures t.refs[b][p] == Tokens(t, p, b) {
      assert s.refs[b][p] == Tokens(s, p, b);
    }
    forall p: Pid ensures Agrees(t.bufs, p, PcOf(t.pc, p)) {
      assert Agrees(s.bufs, p, PcOf(s.pc, p));
    }
    assert LockInv(t) && KeyInv(t);
    assert TimeInv(t) by {
      forall q: Pid ensures Since(t, q) == Since(s, q) {}
      assert forall q: Pid, h: nat :: AtHome(PcOf(t.pc, q), h) <==> AtHome(PcOf(s.pc, q), h);
    }
  }

  lemma AcquireSteps(s: State, p: Pid, a: Action)
    requires Inv(s) && DoRelease(s, p, a).Some?
    requires a.AcquireForRelease? || a.AcquireForPin? || a.AcquireForUnpin?
    ensures Inv(DoRelease(s, p, a).value)
  {
    var t := DoRelease(s, p, a).value;
    var c := PcOf(t.pc, p);
    assert Agrees(s.bufs, p, PcOf(s.pc, p));
    TimesFollow(s, t, p, c);
    forall h: nat | h < NBUCKETS ensures t.lock[h] == Option.Some(p) <==> Owns(c, h) {
      assert s.lock[h] == Option.Some(p) <==> Owns(PcOf(s.pc, p), h);
    }
    PlainStep(s, t, p, c);
  }

  lemma PinAndDropSteps(s: State, p: Pid, a: Action)
    requires Inv(s) && DoRelease(s, p, a).Some? && (a.StartPin? || a.ReleaseLock?)
    ensures Inv(DoRelease(s, p, a).value)
  {
    var t := DoRelease(s, p, a).value;
    var c := PcOf(t.pc, p);
    assert Agrees(s.bufs, p, PcOf(s.pc, p));
    TimesFollow(s, t, p, c);
    forall h: nat | h < NBUCKETS
      ensures t.lock[h] == Option.Some(p) <==> Owns(c, h)
      ensures forall q: Pid :: q != p ==> (t.lock[h] == Option.Some(q) <==> s.lock[h] == Option.Some(q))
    {
      assert s.lock[h] == Option.Some(p) <==> Owns(PcOf(s.pc, p), h);
    }
    PlainStep(s, t, p, c);
  }

  lemma StartSteps(s: State, p: Pid, a: Action)
    requires Inv(s) && DoRelease(s, p, a).Some? && (a.StartRelease? || a.StartUnpin?)
    ensures Inv(DoRelease(s, p, a).value)
  {
    var t := DoRelease(s, p, a).value;
    assert s.refs[a.b][p] == Tokens(s, p, a.b);
    BufStep(s, t, p, PcOf(t.pc, p), a.b);
  }

  lemma CountSteps(s: State, p: Pid, a: Action)
    requires Inv(s) && DoRelease(s, p, a).Some? && (a.DecRef? || a.IncRef? || a.DecPin?)
    ensures Inv(DoRelease(s, p, a).value)
  {
    var t := DoRelease(s, p, a).value;
    var b := PcOf(s.pc, p).b;
    assert Agrees(s.bufs, p, PcOf(s.pc, p));
    assert s.refs[b][p] == Tokens(s, p, b);
    if a.IncRef? {
      OwnedIsReferenced(s, p, b);
    }
    BufStep(s, t, p, PcOf(t.pc, p), b);
  }

  lemma OwnedIsReferenced(s: State, p: Pid, b: nat)
    requires Shape(s) && RefInv(s) && b < |s.bufs| && s.bufs[b].owner == Option.Some(p)
    ensures s.bufs[b].refcnt > 0
  {
    assert s.refs[b][p] == Tokens(s, p, b);
  }

  /** Every step of every process keeps the invariant. */
  lemma StepKeepsInv(s: State, p: Pid, a: Action)
    requires Inv(s) && Do(s, p, a).Some?
    ensures Inv(Do(s, p, a).value)
  {
    if DoGet(s, p, a).Some? {
      GetStep(s, p, a);
    } else if DoUse(s, p, a).Some? {
      if a.Modify? || a.Write? {
        WriteSteps(s, p, a);
      } else {
        ReadSteps(s, p, a);
      }
    } else if a.StartRelease? || a.StartUnpin? {
      StartSteps(s, p, a);
    } else if a.DecRef? || a.IncRef? || a.DecPin? {
      CountSteps(s, p, a);
    } else if a.StartPin? || a.ReleaseLock? {
      PinAndDropSteps(s, p, a);
    } else {
      AcquireSteps(s, p, a);
    }
  }

  // ---------------------------------------------------------------------------------------
  // Runs
  // ---------------------------------------------------------------------------------------

  datatype Event = Event(p: Pid, a: Action)

  /** Event i leads from state i to the next. */
  predicate StepAt(run: seq<State>, events: seq<Event>, i: nat)
    requires i < |events| < |run|
  {
    Shape(run[i]) && Do(run[i], events[i].p, events[i].a) == Option.Some(run[i + 1])
  }

  /** A sequence of steps, starting after binit. */
  ghost predicate IsRun(run: seq<State>, events: seq<Event>) {
    && |run| == |events| + 1
    && Init(run[0])
    && forall i: nat :: i < |events| ==> StepAt(run, events, i)
  }

  lemma InitHasInv(s: State)
    requires Init(s)
    ensures Inv(s)
  {
    assert forall p: Pid :: PcOf(s.pc, p) == Idle;
    forall b: nat, p: Pid | b < |s.bufs| ensures s.refs[b][p] == Tokens(s, p, b) {
      assert s.refs[b] == multiset{};
    }
  }

  /** The invariant holds in every state of every run. */
  lemma {:induction false} RunKeepsInv(run: seq<State>, events: seq<Event>, i: nat)
    requires IsRun(run, events) && i < |run|
    ensures Inv(run[i])
  {
    if i == 0 {
      InitHasInv(run[0]);
    } else {
      var j := i - 1;
      RunKeepsInv(run, events, j);
      assert StepAt(run, events, j);
      StepKeepsInv(run[j], events[j].p, events[j].a);
    }
  }

  // ---------------------------------------------------------------------------------------
  // Bucket locks never deadlock
  // ---------------------------------------------------------------------------------------

  /** The bucket lock a process is spinning on. */
  function Wants(c: Pc): Option<nat> {
    match c
    case WantHome(k) => Option.Some(Home(k))
    case SweepWait(_, f) => Option.Some(f)
    case RelWant(_, h) => Option.Some(h)
    case PinWant(_, h) => Option.Some(h)
    case UnpinWant(_, h) => Option.Some(h)
    case _ => Option.None
  }

  predicate WaitsFor(s: State, p: Pid, q: Pid)
    requires Shape(s)
  {
    var w := Wants(PcOf(s.pc, p));
    w.Some? && w.value < NBUCKETS && s.lock[w.value] == Option.Some(q)
  }

  predicate Blocked(s: State, p: Pid)
    requires Shape(s)
  {
    var w := Wants(PcOf(s.pc, p));
    w.Some? && w.value < NBUCKETS && s.lock[w.value].Some?
  }

  /** Whoever is waited for and itself waits is a thief, and took its home lock later. */
  lemma WaitedForIsLater(s: State, p: Pid, q: Pid)
    requires Inv(s) && WaitsFor(s, p, q) && Wants(PcOf(s.pc, q)).Some?
    ensures PcOf(s.pc, q).SweepWait? && Since(s, q) < s.clock
    ensures PcOf(s.pc, p).SweepWait? ==> Since(s, p) < Since(s, q)
  {
    var h := Wants(PcOf(s.pc, p)).value;
    assert Owns(PcOf(s.pc, q), h);
    assert AtHome(PcOf(s.pc, q), h);
  }

  /** A closed chain in which every process waits for the next. */
  predicate IsCycle(s: State, ps: seq<Pid>)
    requires Shape(s)
  {
    && |ps| > 0
    && WaitsFor(s, ps[|ps| - 1], ps[0])
    && forall i :: 0 <= i < |ps| - 1 ==> WaitsFor(s, ps[i], ps[i + 1])
  }

  lemma CycleMemberWaits(s: State, ps: seq<Pid>, i: nat)
    requires Shape(s) && IsCycle(s, ps) && i < |ps|
    ensures Wants(PcOf(s.pc, ps[i])).Some?
  {
    assert i < |ps| - 1 ==> WaitsFor(s, ps[i], ps[i + 1]);
  }

  lemma {:induction false} ChainIsLater(s: State, ps: seq<Pid>, i: nat)
    requires Inv(s) && IsCycle(s, ps) && i < |ps|
    requires PcOf(s.pc, ps[0]).SweepWait?
    ensures PcOf(s.pc, ps[i]).SweepWait?
    ensures i > 0 ==> Since(s, ps[0]) < Since(s, ps[i])
  {
    if i > 0 {
      var j := i - 1;
      ChainIsLater(s, ps, j);
      assert WaitsFor(s, ps[j], ps[j + 1]);
      CycleMemberWaits(s, ps, i);
      WaitedForIsLater(s, ps[j], ps[i]);
    }
  }

  /** In every state of every run the waits-for relation on bucket locks has no cycle. */
  lemma NoDeadlock(run: seq<State>, events: seq<Event>, i: nat, ps: seq<Pid>)
    requires IsRun(run, events) && i < |run|
    ensures Shape(run[i]) && !IsCycle(run[i], ps)
  {
    RunKeepsInv(run, events, i);
    var s := run[i];
    if IsCycle(s, ps) {
      CycleMemberWaits(s, ps, 0);
      WaitedForIsLater(s, ps[|ps| - 1], ps[0]);
      ChainIsLater(s, ps, |ps| - 1);
    }
  }

  lemma SearcherCanStep(s: State, q: Pid) returns (a: Action)
    requires Shape(s) && Agrees(s.bufs, q, PcOf(s.pc, q))
    requires var c := PcOf(s.pc, q); c.Lookup? || c.Recycle? || c.SweepScan?
    ensures DoGet(s, q, a).Some?
  {
    match PcOf(s.pc, q)
    case Lookup(k) =>
      if b: nat :| b < |s.bufs| && s.bufs[b].bucket == Home(k) && s.bufs[b].key == k { a := Hit(b); } else { a := Miss; }
    case Recycle(k) =>
      if b: nat :| b < |s.bufs| && s.bufs[b].bucket == Home(k) && s.bufs[b].refcnt == 0 { a := TakeHome(b); } else { a := NoneAtHome; }
    case SweepScan(_, f) =>
      if b: nat :| b < |s.bufs| && s.bufs[b].bucket == f && s.bufs[b].refcnt == 0 { a := Steal(b); } else { a := NoneAtVictim; }
  }

  lemma CounterCanStep(s: State, q: Pid) returns (a: Action)
    requires Shape(s) && RefInv(s) && Agrees(s.bufs, q, PcOf(s.pc, q))
    requires var c := PcOf(s.pc, q); c.RelHold? || c.PinHold? || c.UnpinHold? || c.Drop?
    ensures DoRelease(s, q, a).Some?
  {
    var c := PcOf(s.pc, q);
    a := if c.PinHold? then IncRef else if c.Drop? then ReleaseLock else if c.RelHold? then DecRef else DecPin;
    if c.RelHold? || c.UnpinHold? {
      assert s.refs[c.b][q] == Tokens(s, q, c.b);
    }
  }

  lemma SweeperCanStep(s: State, q: Pid) returns (a: Action)
    requires Inv(s) && !Blocked(s, q)
    requires var c := PcOf(s.pc, q);
             c.SweepTest? || c.SweepPeek? || c.SweepWait? || c.DropVictim? || c.DropHome? || c.NoBuffers?
    ensures DoGet(s, q, a).Some?
  {
    var c := PcOf(s.pc, q);
    assert Agrees(s.bufs, q, c);
    a := if c.SweepTest? then TestSweep
         else if c.SweepPeek? then (if s.lock[c.f].Some? then PeekLocked else PeekFree)
         else if c.SweepWait? then AcquireVictim
         else if c.DropVictim? then ReleaseVictim
         else if c.DropHome? then ReleaseHome
         else Panic;
  }

  /** A holder of a bucket lock that is not blocked has an enabled step. */
  lemma HolderCanStep(s: State, q: Pid, h: nat) returns (a: Action)
    requires Inv(s) && h < NBUCKETS && s.lock[h] == Option.Some(q) && !Blocked(s, q)
    ensures DoGet(s, q, a).Some? || DoRelease(s, q, a).Some?
  {
    var c := PcOf(s.pc, q);
    assert Owns(c, h);
    if c.Lookup? || c.Recycle? || c.SweepScan? {
      a := SearcherCanStep(s, q);
    } else if c.RelHold? || c.PinHold? || c.UnpinHold? || c.Drop? {
      a := CounterCanStep(s, q);
    } else {
      a := SweeperCanStep(s, q);
    }
  }

  /** Behind every blocked process there is a lock holder with an enabled step. */
  lemma {:induction false} BlockedHasMover(s: State, p: Pid) returns (q: Pid, a: Action)
    requires Inv(s) && Blocked(s, p)
    ensures (exists h: nat :: h < NBUCKETS && s.lock[h] == Option.Some(q)) && Do(s, q, a).Some?
    decreases if PcOf(s.pc, p).SweepWait? then s.clock - Since(s, p) else s.clock + 1
  {
    var h := Wants(PcOf(s.pc, p)).value;
    q := s.lock[h].value;
    if Blocked(s, q) {
      WaitedForIsLater(s, p, q);
      q, a := BlockedHasMover(s, q);
    } else {
      a := HolderCanStep(s, q, h);
    }
  }

  // ---------------------------------------------------------------------------------------
  // Keys and references
  // ---------------------------------------------------------------------------------------

  /** In every state of every run: one buffer per assigned key, on its home list; the count of
      each buffer is the references of all processes plus its pins. */
  lemma CacheIsKeyed(run: seq<State>, events: seq<Event>, i: nat, b: nat, c: nat, p: Pid)
    requires IsRun(run, events) && i < |run| && b < |run[i].bufs| && c < |run[i].bufs|
    ensures var s := run[i];
            && Shape(s)
            && (s.bufs[b].key == s.bufs[c].key && s.bufs[b].key.dev != 0 ==> b == c)
            && (s.bufs[b].key.dev != 0 ==> s.bufs[b].bucket == s.bufs[b].key.blockno % NBUCKETS)
            && s.bufs[b].refcnt == |s.refs[b]| + s.pins[b]
            && s.refs[b][p] == Tokens(s, p, b)
  {
    RunKeepsInv(run, events, i);
  }

  lemma GetRekeysOnlyFree(s: State, p: Pid, a: Action, b: nat)
    requires Shape(s) && DoGet(s, p, a).Some? && b < |s.bufs|
    ensures var t := DoGet(s, p, a).value;
            |t.bufs| == |s.bufs| && (t.bufs[b].key != s.bufs[b].key ==> s.bufs[b].refcnt == 0)
  {
  }

  lemma OthersKeepKeys(s: State, p: Pid, a: Action, b: nat)
    requires Shape(s) && b < |s.bufs|
    ensures var t := DoUse(s, p, a); t.Some? ==> |t.value.bufs| == |s.bufs| && t.value.bufs[b].key == s.bufs[b].key
    ensures var t := DoRelease(s, p, a); t.Some? ==> |t.value.bufs| == |s.bufs| && t.value.bufs[b].key == s.bufs[b].key
  {
  }

  /** A step re-keys a buffer only when no process refers to it and nothing pins it. */
  lemma NeverRekeyedInUse(run: seq<State>, events: seq<Event>, i: nat, b: nat, q: Pid)
    requires IsRun(run, events) && i < |events| && b < |run[i].bufs|
    ensures |run[i + 1].bufs| == |run[i].bufs|
    ensures run[i + 1].bufs[b].key != run[i].bufs[b].key ==>
              Shape(run[i]) && run[i].bufs[b].refcnt == 0 && Tokens(run[i], q, b) == 0 && run[i].pins[b] == 0
  {
    RunKeepsInv(run, events, i);
    assert StepAt(run, events, i);
    if DoGet(run[i], events[i].p, events[i].a).Some? {
      GetRekeysOnlyFree(run[i], events[i].p, events[i].a, b);
    } else {
      OthersKeepKeys(run[i], events[i].p, events[i].a, b);
    }
    if run[i].bufs[b].refcnt == 0 {
      FreeIsUnused(run[i], b, q);
    }
  }

  // ---------------------------------------------------------------------------------------
  // The cache is a flat disk
  // ---------------------------------------------------------------------------------------

  /** The position is inside bread, after the sleep lock on b and before the return. */
  predicate Loading(c: Pc, b: nat) {
    (c.CheckValid? || c.SetValid?) && c.b == b
  }

  /** A valid clean buffer equals its disk block, changes are only in buffers a client holds,
      and a held buffer is valid once bread returned. */
  predicate BufOk(disk: map<Key, Block>, pc: map<Pid, Pc>, b: nat, f: Buf) {
    && (f.valid && !f.dirty ==> f.data == OnDisk(disk, f.key))
    && (f.dirty ==> f.owner.Some?)
    && (f.owner.Some? ==>
          var c := PcOf(pc, f.owner.value);
          && (Loading(c, b) ==> !f.dirty)
          && (c.SetValid? && c.b == b ==> f.data == OnDisk(disk, f.key))
          && (!Loading(c, b) ==> f.valid))
  }

  /** Holds unless some client released unwritten changes. */
  ghost predicate DiskInv(s: State) {
    !s.sloppy ==> forall b: nat :: b < |s.bufs| ==> BufOk(s.disk, s.pc, b, s.bufs[b])
  }

  /** A step outside bread that leaves the contents and the owner of a buffer alone. */
  lemma SameContentsOk(s: State, t: State, p: Pid, c: Pc, b: nat)
    requires b < |s.bufs| && b < |t.bufs| && BufOk(s.disk, s.pc, b, s.bufs[b])
    requires t.disk == s.disk && t.pc == s.pc[p := c]
    requires !Loading(PcOf(s.pc, p), b) && !Loading(c, b)
    requires t.bufs[b].data == s.bufs[b].data && t.bufs[b].key == s.bufs[b].key
    requires t.bufs[b].valid == s.bufs[b].valid && t.bufs[b].dirty == s.bufs[b].dirty
    requires t.bufs[b].owner == s.bufs[b].owner || (t.bufs[b].owner.None? && !s.bufs[b].dirty)
    ensures BufOk(t.disk, t.pc, b, t.bufs[b])
  {
    OnlyOneMoves(s.pc, p, c);
  }

  lemma AssignKeepsBufOk(s: State, p: Pid, a: Action, b: nat)
    requires Inv(s) && DoGet(s, p, a).Some? && b < |s.bufs| && BufOk(s.disk, s.pc, b, s.bufs[b])
    requires (a.TakeHome? || a.Steal?) && a.b == b
    ensures var t := DoGet(s, p, a).value; |t.bufs| == |s.bufs| && BufOk(t.disk, t.pc, b, t.bufs[b])
  {
    if s.bufs[b].owner.Some? {
      OwnedIsReferenced(s, s.bufs[b].owner.value, b);
    }
  }

  lemma GetKeepsBufOk(s: State, p: Pid, a: Action, b: nat)
    requires Shape(s) && DoGet(s, p, a).Some? && b < |s.bufs| && BufOk(s.disk, s.pc, b, s.bufs[b])
    requires !((a.TakeHome? || a.Steal?) && a.b == b)
    ensures var t := DoGet(s, p, a).value; |t.bufs| == |s.bufs| && BufOk(t.disk, t.pc, b, t.bufs[b])
  {
    var t := DoGet(s, p, a).value;
    SameContentsOk(s, t, p, PcOf(t.pc, p), b);
  }

  lemma UseKeepsBufOk(s: State, p: Pid, a: Action, b: nat)
    requires Inv(s) && DoUse(s, p, a).Some? && b < |s.bufs| && BufOk(s.disk, s.pc, b, s.bufs[b])
    ensures var t := DoUse(s, p, a).value; |t.bufs| == |s.bufs| && BufOk(t.disk, t.pc, b, t.bufs[b])
  {
    var t := DoUse(s, p, a).value;
    OnlyOneMoves(s.pc, p, PcOf(t.pc, p));
    assert Agrees(s.bufs, p, PcOf(s.pc, p));
    if a.Write? {
      OwnedIsReferenced(s, p, a.b);
    }
  }

  lemma ReleaseKeepsBufOk(s: State, p: Pid, a: Action, b: nat)
    requires Shape(s) && DoRelease(s, p, a).Some? && b < |s.bufs| && BufOk(s.disk, s.pc, b, s.bufs[b])
    requires !DoRelease(s, p, a).value.sloppy
    ensures var t := DoRelease(s, p, a).value; |t.bufs| == |s.bufs| && BufOk(t.disk, t.pc, b, t.bufs[b])
  {
    var t := DoRelease(s, p, a).value;
    SameContentsOk(s, t, p, PcOf(t.pc, p), b);
  }

  lemma StepKeepsDiskInv(s: State, p: Pid, a: Action)
    requires Inv(s) && DiskInv(s) && Do(s, p, a).Some?
    ensures DiskInv(Do(s, p, a).value)
  {
    var t := Do(s, p, a).value;
    if !t.sloppy {
      StepFrame(s, p, a);
      forall b: nat | b < |t.bufs| ensures BufOk(t.disk, t.pc, b, t.bufs[b]) {
        if (a.TakeHome? || a.Steal?) && a.b == b {
          AssignKeepsBufOk(s, p, a, b);
        } else if DoGet(s, p, a).Some? {
          GetKeepsBufOk(s, p, a, b);
        } else if DoUse(s, p, a).Some? {
          UseKeepsBufOk(s, p, a, b);
        } else {
          ReleaseKeepsBufOk(s, p, a, b);
        }
      }
    }
  }

  lemma GetFrame(s: State, p: Pid, a: Action)
    requires Shape(s) && DoGet(s, p, a).Some?
    ensures var t := DoGet(s, p, a).value; t.disk == s.disk && t.sloppy == s.sloppy && |t.bufs| == |s.bufs|
  {
  }

  lemma UseFrame(s: State, p: Pid, a: Action)
    requires Shape(s) && DoUse(s, p, a).Some?
    ensures var t := DoUse(s, p, a).value; t.sloppy == s.sloppy && |t.bufs| == |s.bufs| && (!a.Write? ==> t.disk == s.disk)
  {
  }

  lemma ReleaseFrame(s: State, p: Pid, a: Action)
    requires Shape(s) && DoRelease(s, p, a).Some?
    ensures var t := DoRelease(s, p, a).value; t.disk == s.disk && (s.sloppy ==> t.sloppy) && |t.bufs| == |s.bufs|
  {
  }

  lemma StepFrame(s: State, p: Pid, a: Action)
    requires Shape(s) && Do(s, p, a).Some?
    ensures var t := Do(s, p, a).value; (s.sloppy ==> t.sloppy) && |t.bufs| == |s.bufs| && (!a.Write? ==> t.disk == s.disk)
  {
    if DoGet(s, p, a).Some? {
      GetFrame(s, p, a);
    } else if DoUse(s, p, a).Some? {
      UseFrame(s, p, a);
    } else {
      ReleaseFrame(s, p, a);
    }
  }

  lemma {:induction false} RunKeepsDiskInv(run: seq<State>, events: seq<Event>, i: nat)
    requires IsRun(run, events) && i < |run|
    ensures DiskInv(run[i])
  {
    if i > 0 {
      var j := i - 1;
      RunKeepsDiskInv(run, events, j);
      RunKeepsInv(run, events, j);
      assert StepAt(run, events, j);
      StepKeepsDiskInv(run[j], events[j].p, events[j].a);
    }
  }

  /** What a step shows to a client: bread returns a block, bwrite writes one. */
  datatype Visible = Nothing | Reads(k: Key, v: Block) | Writes(k: Key, v: Block)

  function Shows(s: State, e: Event): Visible
    requires Shape(s) && Do(s, e.p, e.a).Some?
  {
    var t := Do(s, e.p, e.a).value;
    match (e.a, PcOf(s.pc, e.p))
    case (Return, CheckValid(k, b)) => if b < |t.bufs| then Reads(k, t.bufs[b].data) else Nothing
    case (MarkValid, SetValid(k, b)) => if b < |t.bufs| then Reads(k, t.bufs[b].data) else Nothing
    case (Write(b), Idle) => if b < |s.bufs| then Writes(s.bufs[b].key, s.bufs[b].data) else Nothing
    case _ => Nothing
  }

  /** The specification: one array of blocks, no cache. */
  predicate FlatDisk(d: map<Key, Block>, v: Visible, d': map<Key, Block>) {
    match v
    case Nothing => d' == d
    case Reads(k, x) => d' == d && x == OnDisk(d, k)
    case Writes(k, x) => d' == d[k := x]
  }

  lemma StepIsFlat(s: State, e: Event)
    requires Inv(s) && DiskInv(s) && !s.sloppy && Do(s, e.p, e.a).Some?
    ensures FlatDisk(s.disk, Shows(s, e), Do(s, e.p, e.a).value.disk)
  {
    assert Agrees(s.bufs, e.p, PcOf(s.pc, e.p));
    if !e.a.Write? {
      StepFrame(s, e.p, e.a);
      if Shows(s, e).Reads? {
        var b := PcOf(s.pc, e.p).b;
        assert BufOk(s.disk, s.pc, b, s.bufs[b]);
      }
    }
  }

  /** Every run in which changes are written before release behaves as one flat disk: each
      bread returns exactly what the disk then holds for the block asked for. */
  lemma CacheRefinesFlatDisk(run: seq<State>, events: seq<Event>, i: nat)
    requires IsRun(run, events) && i < |events| && !run[i].sloppy
    ensures Shape(run[i]) && Do(run[i], events[i].p, events[i].a).Some?
    ensures FlatDisk(run[i].disk, Shows(run[i], events[i]), run[i + 1].disk)
  {
    RunKeepsInv(run, events, i);
    RunKeepsDiskInv(run, events, i);
    assert StepAt(run, events, i);
    StepIsFlat(run[i], events[i]);
  }

  // ---------------------------------------------------------------------------------------
  // What a client puts into a buffer is what it writes
  // ---------------------------------------------------------------------------------------

  /** p has bread's buffer b, with data d in it, for block k. */
  predicate Has(s: State, p: Pid, b: nat, k: Key, d: Block) {
    b < |s.bufs| && s.bufs[b].owner == Option.Some(p) && s.bufs[b].key == k && s.bufs[b].data == d && !Loading(PcOf(s.pc, p), b)
  }

  lemma GetKeepsData(s: State, p: Pid, b: nat, k: Key, d: Block, q: Pid, a: Action)
    requires Shape(s) && Has(s, p, b, k, d) && DoGet(s, q, a).Some? && s.bufs[b].refcnt > 0
    ensures Has(DoGet(s, q, a).value, p, b, k, d)
  {
  }

  lemma UseKeepsData(s: State, p: Pid, b: nat, k: Key, d: Block, q: Pid, a: Action)
    requires Inv(s) && Has(s, p, b, k, d) && DoUse(s, q, a).Some? && !(q == p && a.Modify? && a.b == b)
    ensures Has(DoUse(s, q, a).value, p, b, k, d)
  {
    assert Agrees(s.bufs, q, PcOf(s.pc, q));
  }

  lemma ReleaseKeepsData(s: State, p: Pid, b: nat, k: Key, d: Block, q: Pid, a: Action)
    requires Shape(s) && Has(s, p, b, k, d) && DoRelease(s, q, a).Some? && !(q == p && a.StartRelease? && a.b == b)
    ensures Has(DoRelease(s, q, a).value, p, b, k, d)
  {
  }

  /** Nobody but its holder changes a buffer or takes it away. */
  lemma StepKeepsData(s: State, p: Pid, b: nat, k: Key, d: Block, e: Event)
    requires Inv(s) && Has(s, p, b, k, d) && Do(s, e.p, e.a).Some? && !(e.p == p && (e.a.Modify? || e.a.StartRelease?) && e.a.b == b)
    ensures Has(Do(s, e.p, e.a).value, p, b, k, d)
  {
    if DoGet(s, e.p, e.a).Some? {
      OwnedIsReferenced(s, p, b);
      GetKeepsData(s, p, b, k, d, e.p, e.a);
    } else if DoUse(s, e.p, e.a).Some? {
      UseKeepsData(s, p, b, k, d, e.p, e.a);
    } else {
      ReleaseKeepsData(s, p, b, k, d, e.p, e.a);
    }
  }

  /** Between i and j process p neither changes nor releases b. */
  ghost predicate LeavesAlone(events: seq<Event>, p: Pid, b: nat, i: nat, j: nat) {
    forall l: nat :: i < l < j && l < |events| && events[l].p == p && (events[l].a.Modify? || events[l].a.StartRelease?) ==> events[l].a.b != b
  }

  lemma {:induction false} DataStays(run: seq<State>, events: seq<Event>, i: nat, j: nat, p: Pid, b: nat, d: Block) returns (k: Key)
    requires IsRun(run, events) && i < j < |run| && events[i] == Event(p, Modify(b, d)) && LeavesAlone(events, p, b, i, j)
    ensures Has(run[j], p, b, k, d)
  {
    assert StepAt(run, events, j - 1);
    if j == i + 1 {
      k := run[i].bufs[b].key;
    } else {
      k := DataStays(run, events, i, j - 1, p, b, d);
      RunKeepsInv(run, events, j - 1);
      StepKeepsData(run[j - 1], p, b, k, d, events[j - 1]);
    }
  }

  /** In every run what bwrite puts on the disk is what its caller last put into the buffer. */
  lemma WritesWhatWasPut(run: seq<State>, events: seq<Event>, i: nat, j: nat, p: Pid, b: nat, d: Block)
    requires IsRun(run, events) && i < j < |events| && events[i] == Event(p, Modify(b, d)) && events[j] == Event(p, Write(b)) && LeavesAlone(events, p, b, i, j)
    ensures b < |run[j].bufs| && run[j + 1].disk == run[j].disk[run[j].bufs[b].key := d]
  {
    var k := DataStays(run, events, i, j, p, b, d);
    assert StepAt(run, events, j);
  }
}

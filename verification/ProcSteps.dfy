/**
 Process lifecycle and scheduler as interleaved steps of the CPUs.

 A CPU is either somewhere in `scheduler` or inside the kernel thread of one process; a lock
 records the CPU that holds it, so handing a process lock across `swtch` changes nothing in
 it.  One step is one access to shared state.  `cont` says where a kernel thread continues
 when it is next switched to; it is fixed by the call that gives up the CPU.
 */
module ProcSteps {
  import opened Common

  /** initproc is the first slot, filled by userinit. */
  const INIT: nat := 0

  datatype PState = UNUSED | SLEEPING | RUNNABLE | RUNNING | ZOMBIE

  /** What a process sleeps on: itself in wait, or some other kernel address. */
  datatype Chan = OfProc(p: nat) | Address(a: nat)

  datatype Cont = NewProc | YieldBack(sp: Spot) | SleepBack(ch: nat, x: nat) | WaitBack

  /** A position without locks, where a timer interrupt may make the thread yield. */
  datatype Spot = AtRun | AtReacquire(ch: nat, x: nat) | AtKill(j: nat) | AtFork(j: nat) | AtWait | AtExit(pp: nat, e: ExitPc)

  /** `kpt`: the process has a kernel page table. */
  datatype Proc = Proc(state: PState, parent: Option<nat>, chan: Option<Chan>, killed: bool,
                       lock: Option<nat>, kpt: bool, cont: Cont)

  /** One slot of a table scan: about to lock it, looking at it, about to release it. */
  datatype Stage = Lock | Look | Unlock

  datatype YieldPc = YWant | YMark | YSwitch
  datatype SleepPc = SWant | SDropX | SMark | SSwitch | SDropOwn | SReacquire
  datatype WaitPc = WWant | WScan(i: nat, kids: bool) | WKid(j: nat, k: KidPc) | WDropOwn | WMark | WSwitch
  datatype KidPc = KLock | KLook | KNext | KDone
  datatype ForkPc = FLock | FTest | FNext | FFill | FParent | FReady | FRelease
  datatype ExitPc = XInit(t: Stage) | XWantOwn | XCopy | XDropOwn | XWantParent | XWantOwnAgain | XLate(l: LatePc) | XSwitch
  datatype LatePc = LScan(i: nat) | LKid(j: nat, t: Stage) | LWake | LZombie | LDropParent

  /** Position inside a process's kernel thread.  `x` is the caller's lock of sleep or wakeup,
      `pp` is exit's original_parent once copied. */
  datatype Pc =
    | Run
    | Resume(k: Cont)
    | InYield(y: YieldPc, sp: Spot)
    | InSleep(ch: nat, x: nat, z: SleepPc)
    | InWake(ch: nat, x: nat, j: nat, t: Stage)
    | InKill(j: nat, t: Stage, more: bool)
    | InWait(w: WaitPc)
    | InFork(j: nat, f: ForkPc)
    | InExit(pp: nat, e: ExitPc)

  datatype Mode =
    | Scan(j: nat)
    | Have(j: nat)
    | Load(j: nat)
    | Loaded(j: nat)
    | Thread(p: nat, pc: Pc)
    | Back(j: nat)
    | Dropping(j: nat)

  /** `satp` is the process whose kernel page table is loaded, None for the global one. */
  datatype Cpu = Cpu(mode: Mode, satp: Option<nat>)

  /** `xlock` maps every other held kernel lock to the process holding it. */
  datatype State = State(procs: seq<Proc>, cpus: seq<Cpu>, xlock: map<nat, nat>)

  /** What a thread in `Run` does next, or how a choice the model does not track comes out. */
  datatype Action =
    | Go
    | Choose(yes: bool)
    | CallYield
    | CallSleep(ch: nat, x: nat)
    | CallWakeup(ch: nat, x: nat)
    | CallKill
    | CallWait
    | CallFork
    | CallExit
    | TakeX(x: nat)
    | DropX(x: nat)

  // ---------------------------------------------------------------------------------------
  // Steps
  // ---------------------------------------------------------------------------------------

  predicate Shape(s: State) {
    INIT < |s.procs|
  }

  function At(s: State, c: nat, m: Mode): State
    requires c < |s.cpus|
  {
    s.(cpus := s.cpus[c := s.cpus[c].(mode := m)])
  }

  function Acquire(s: State, c: nat, j: nat, m: Mode): Option<State>
    requires c < |s.cpus|
  {
    if j < |s.procs| && s.procs[j].lock.None?
    then Some(At(s, c, m).(procs := s.procs[j := s.procs[j].(lock := Option.Some(c))]))
    else None
  }

  function Release(s: State, c: nat, j: nat, m: Mode): Option<State>
    requires c < |s.cpus|
  {
    if j < |s.procs| then Some(At(s, c, m).(procs := s.procs[j := s.procs[j].(lock := Option.None)])) else None
  }

  function Update(s: State, c: nat, j: nat, q: Proc, m: Mode): Option<State>
    requires c < |s.cpus|
  {
    if j < |s.procs| then Some(At(s, c, m).(procs := s.procs[j := q])) else None
  }

  /** The slot after j in scheduler's endless round. */
  function NextSlot(s: State, j: nat): nat {
    if j + 1 < |s.procs| then j + 1 else 0
  }

  /** scheduler (proc.c:491-532), and a thread's swtch back into it (proc.c:557). */
  function DoSched(s: State, c: nat): Option<State>
    requires c < |s.cpus|
  {
    match s.cpus[c].mode
    case Scan(j) => Acquire(s, c, j, Have(j))
    case Have(j) =>
      if j >= |s.procs| then None
      else if s.procs[j].state.RUNNABLE? then Update(s, c, j, s.procs[j].(state := RUNNING), Load(j))
      else Some(At(s, c, Dropping(j)))
    case Load(j) => Some(s.(cpus := s.cpus[c := Cpu(Loaded(j), Option.Some(j))]))
    case Loaded(j) =>
      if j < |s.procs| then Some(At(s, c, Thread(j, Resume(s.procs[j].cont)))) else None
    case Back(j) => Some(s.(cpus := s.cpus[c := Cpu(Dropping(j), Option.None)]))
    case Dropping(j) => Release(s, c, j, Scan(NextSlot(s, j)))
    case Thread(p, pc) => if Leaving(pc) then Some(At(s, c, Back(p))) else None
  }

  /** The next step is swtch back into the scheduler. */
  predicate Leaving(pc: Pc) {
    match pc
    case InYield(y, _) => y.YSwitch?
    case InSleep(_, _, z) => z.SSwitch?
    case InWait(w) => w.WSwitch?
    case InExit(_, e) => e.XSwitch?
    case _ => false
  }

  /** Calls from ordinary kernel code, and locks other than process locks. */
  function DoCall(s: State, c: nat, p: nat, a: Action): Option<State>
    requires c < |s.cpus|
  {
    match a
    case CallSleep(ch, x) =>
      if x in s.xlock && s.xlock[x] == p then Some(At(s, c, Thread(p, InSleep(ch, x, SWant)))) else None
    case CallWakeup(ch, x) =>
      if x in s.xlock && s.xlock[x] == p then Some(At(s, c, Thread(p, InWake(ch, x, 0, Lock)))) else None
    case CallKill => Some(At(s, c, Thread(p, InKill(0, Lock, true))))
    case CallWait => Some(At(s, c, Thread(p, InWait(WWant))))
    case CallFork => Some(At(s, c, Thread(p, InFork(0, FLock))))
    case CallExit => if p != INIT then Some(At(s, c, Thread(p, InExit(0, XInit(Lock))))) else None
    case TakeX(x) => if x !in s.xlock then Some(s.(xlock := s.xlock[x := p])) else None
    case DropX(x) => if x in s.xlock && s.xlock[x] == p then Some(s.(xlock := s.xlock - {x})) else None
    case _ => None
  }

  /** Back from swtch in forkret, yield, sleep or wait (proc.c:569, 580, 618). */
  function DoResume(s: State, c: nat, p: nat, k: Cont): Option<State>
    requires c < |s.cpus| && p < |s.procs|
  {
    match k
    case NewProc => Release(s, c, p, Thread(p, Run))
    case YieldBack(sp) => Release(s, c, p, Thread(p, PcAt(sp)))
    case SleepBack(ch, x) => Update(s, c, p, s.procs[p].(chan := Option.None), Thread(p, InSleep(ch, x, SDropOwn)))
    case WaitBack => Update(s, c, p, s.procs[p].(chan := Option.None), Thread(p, InWait(WScan(0, false))))
  }

  /** yield (proc.c:562-570). */
  function DoYield(s: State, c: nat, p: nat, y: YieldPc, sp: Spot): Option<State>
    requires c < |s.cpus| && p < |s.procs|
  {
    match y
    case YWant => Acquire(s, c, p, Thread(p, InYield(YMark, sp)))
    case YMark => Update(s, c, p, s.procs[p].(state := RUNNABLE, cont := YieldBack(sp)), Thread(p, InYield(YSwitch, sp)))
    case YSwitch => None
  }

  function PcAt(sp: Spot): Pc {
    match sp
    case AtRun => Run
    case AtReacquire(ch, x) => InSleep(ch, x, SReacquire)
    case AtKill(j) => InKill(j, Lock, true)
    case AtFork(j) => InFork(j, FLock)
    case AtWait => InWait(WWant)
    case AtExit(pp, e) => InExit(pp, e)
  }

  /** The spot of a position, if it is one. */
  function SpotOf(pc: Pc): Option<Spot> {
    match pc
    case Run => Option.Some(AtRun)
    case InSleep(ch, x, z) => if z.SReacquire? then Option.Some(AtReacquire(ch, x)) else Option.None
    case InKill(j, t, more) => if t.Lock? && more then Option.Some(AtKill(j)) else Option.None
    case InFork(j, f) => if f.FLock? then Option.Some(AtFork(j)) else Option.None
    case InWait(w) => if w.WWant? then Option.Some(AtWait) else Option.None
    case InExit(pp, e) => if IsExitSpot(e) then Option.Some(AtExit(pp, e)) else Option.None
    case _ => Option.None
  }

  predicate IsExitSpot(e: ExitPc) {
    e == XInit(Lock) || e.XWantOwn? || e.XWantParent?
  }

  /** A timer interrupt: yield, and back to the same position later. */
  function DoPreempt(s: State, c: nat, p: nat, pc: Pc): Option<State>
    requires c < |s.cpus|
  {
    if SpotOf(pc).Some? then Some(At(s, c, Thread(p, InYield(YWant, SpotOf(pc).value)))) else None
  }

  /** sleep on a lock other than the process's own (proc.c:595-625). */
  function DoSleep(s: State, c: nat, p: nat, ch: nat, x: nat, z: SleepPc): Option<State>
    requires c < |s.cpus| && p < |s.procs|
  {
    match z
    case SWant => Acquire(s, c, p, Thread(p, InSleep(ch, x, SDropX)))
    case SDropX => Some(At(s, c, Thread(p, InSleep(ch, x, SMark))).(xlock := s.xlock - {x}))
    case SMark => Update(s, c, p, Slept(s.procs[p], Address(ch), SleepBack(ch, x)), Thread(p, InSleep(ch, x, SSwitch)))
    case SSwitch => None
    case SDropOwn => Release(s, c, p, Thread(p, InSleep(ch, x, SReacquire)))
    case SReacquire =>
      if x !in s.xlock then Some(At(s, c, Thread(p, Run)).(xlock := s.xlock[x := p])) else None
  }

  function Slept(q: Proc, chan: Chan, k: Cont): Proc {
    q.(state := SLEEPING, chan := Option.Some(chan), cont := k)
  }

  function Woken(q: Proc, chan: Chan): Proc {
    if q.state.SLEEPING? && q.chan == Option.Some(chan) then q.(state := RUNNABLE) else q
  }

  /** wakeup (proc.c:629-641). */
  function DoWake(s: State, c: nat, p: nat, ch: nat, x: nat, j: nat, t: Stage): Option<State>
    requires c < |s.cpus| && p < |s.procs|
  {
    match t
    case Lock =>
      if j < |s.procs| then Acquire(s, c, j, Thread(p, InWake(ch, x, j, Look))) else Some(At(s, c, Thread(p, Run)))
    case Look => if j < |s.procs| then Update(s, c, j, Woken(s.procs[j], Address(ch)), Thread(p, InWake(ch, x, j, Unlock))) else None
    case Unlock => Release(s, c, j, Thread(p, InWake(ch, x, j + 1, Lock)))
  }

  function Killed(q: Proc): Proc {
    q.(killed := true, state := if q.state.SLEEPING? then RUNNABLE else q.state)
  }

  /** kill (proc.c:658-677); whether a slot has the pid asked for is chosen. */
  function DoKill(s: State, c: nat, p: nat, j: nat, t: Stage, more: bool, a: Action): Option<State>
    requires c < |s.cpus| && p < |s.procs|
  {
    match t
    case Lock =>
      if j < |s.procs| then Acquire(s, c, j, Thread(p, InKill(j, Look, true))) else Some(At(s, c, Thread(p, Run)))
    case Look =>
      if j >= |s.procs| || !a.Choose? then None
      else Update(s, c, j, if a.yes then Killed(s.procs[j]) else s.procs[j], Thread(p, InKill(j, Unlock, !a.yes)))
    case Unlock => Release(s, c, j, Thread(p, if more then InKill(j + 1, Lock, true) else Run))
  }

  /** freeproc (proc.c:146-166). */
  function Freed(q: Proc): Proc {
    q.(state := UNUSED, parent := Option.None, chan := Option.None, killed := false, kpt := false)
  }

  /** wait (proc.c:432-482); whether copyout of the status works is chosen. */
  function DoWait(s: State, c: nat, p: nat, w: WaitPc, a: Action): Option<State>
    requires c < |s.cpus| && p < |s.procs|
  {
    match w
    case WWant => Acquire(s, c, p, Thread(p, InWait(WScan(0, false))))
    case WScan(i, kids) =>
      Some(At(s, c, Thread(p, InWait(if i < |s.procs| then (if s.procs[i].parent == Option.Some(p) then WKid(i, KLock) else WScan(i + 1, kids))
                                     else if !kids || s.procs[p].killed then WDropOwn else WMark))))
    case WKid(j, KLock) => Acquire(s, c, j, Thread(p, InWait(WKid(j, KLook))))
    case WKid(j, KLook) =>
      if j >= |s.procs| then None
      else if !s.procs[j].state.ZOMBIE? then Some(At(s, c, Thread(p, InWait(WKid(j, KNext)))))
      else if a == Choose(true) then Update(s, c, j, Freed(s.procs[j]), Thread(p, InWait(WKid(j, KDone))))
      else if a == Choose(false) then Some(At(s, c, Thread(p, InWait(WKid(j, KDone)))))
      else None
    case WKid(j, KNext) => Release(s, c, j, Thread(p, InWait(WScan(j + 1, true))))
    case WKid(j, KDone) => Release(s, c, j, Thread(p, InWait(WDropOwn)))
    case WDropOwn => Release(s, c, p, Thread(p, Run))
    case WMark => Update(s, c, p, Slept(s.procs[p], OfProc(p), WaitBack), Thread(p, InWait(WSwitch)))
    case WSwitch => None
  }

  /** fork with allocproc (proc.c:94-141, 286-336); whether memory suffices is chosen. */
  function DoFork(s: State, c: nat, p: nat, j: nat, f: ForkPc, a: Action): Option<State>
    requires c < |s.cpus| && p < |s.procs|
  {
    if f.FLock? && j >= |s.procs| then Some(At(s, c, Thread(p, Run)))
    else if j >= |s.procs| then None
    else
      match f
      case FLock => Acquire(s, c, j, Thread(p, InFork(j, FTest)))
      case FTest => Some(At(s, c, Thread(p, InFork(j, if s.procs[j].state.UNUSED? then FFill else FNext))))
      case FNext => Release(s, c, j, Thread(p, InFork(j + 1, FLock)))
      case FFill =>
        if !a.Choose? then None
        else if a.yes then Update(s, c, j, s.procs[j].(kpt := true, cont := NewProc), Thread(p, InFork(j, FParent)))
        else Update(s, c, j, Freed(s.procs[j]), Thread(p, InFork(j, FRelease)))
      case FParent =>
        if !a.Choose? then None
        else if a.yes then Update(s, c, j, s.procs[j].(parent := Option.Some(p)), Thread(p, InFork(j, FReady)))
        else Update(s, c, j, Freed(s.procs[j]), Thread(p, InFork(j, FRelease)))
      case FReady => Update(s, c, j, s.procs[j].(state := RUNNABLE), Thread(p, InFork(j, FRelease)))
      case FRelease => Release(s, c, j, Thread(p, Run))
  }

  /** exit up to holding the parent's lock and its own (proc.c:394-412). */
  function DoExit(s: State, c: nat, p: nat, pp: nat, e: ExitPc): Option<State>
    requires Shape(s) && c < |s.cpus| && p < |s.procs|
  {
    match e
    case XInit(Lock) => Acquire(s, c, INIT, Thread(p, InExit(pp, XInit(Look))))
    case XInit(Look) => Update(s, c, INIT, Woken(s.procs[INIT], OfProc(INIT)), Thread(p, InExit(pp, XInit(Unlock))))
    case XInit(Unlock) => Release(s, c, INIT, Thread(p, InExit(pp, XWantOwn)))
    case XWantOwn => Acquire(s, c, p, Thread(p, InExit(pp, XCopy)))
    case XCopy =>
      if s.procs[p].parent.Some? then Some(At(s, c, Thread(p, InExit(s.procs[p].parent.value, XDropOwn)))) else None
    case XDropOwn => Release(s, c, p, Thread(p, InExit(pp, XWantParent)))
    case XWantParent => Acquire(s, c, pp, Thread(p, InExit(pp, XWantOwnAgain)))
    case XWantOwnAgain => Acquire(s, c, p, Thread(p, InExit(pp, XLate(LScan(0)))))
    case XLate(l) => DoLate(s, c, p, pp, l)
    case XSwitch => None
  }

  /** reparent, waking the parent and becoming a zombie (proc.c:340-362, 415-423). */
  function DoLate(s: State, c: nat, p: nat, pp: nat, l: LatePc): Option<State>
    requires Shape(s) && c < |s.cpus| && p < |s.procs|
  {
    match l
    case LScan(i) =>
      Some(At(s, c, Thread(p, InExit(pp, XLate(if i >= |s.procs| then LWake
                                               else if s.procs[i].parent == Option.Some(p) then LKid(i, Lock) else LScan(i + 1))))))
    case LKid(j, Lock) => Acquire(s, c, j, Thread(p, InExit(pp, XLate(LKid(j, Look)))))
    case LKid(j, Look) =>
      if j < |s.procs| then Update(s, c, j, s.procs[j].(parent := Option.Some(INIT)), Thread(p, InExit(pp, XLate(LKid(j, Unlock))))) else None
    case LKid(j, Unlock) => Release(s, c, j, Thread(p, InExit(pp, XLate(LScan(j + 1)))))
    case LWake =>
      if pp < |s.procs| then Update(s, c, pp, Woken(s.procs[pp], OfProc(pp)), Thread(p, InExit(pp, XLate(LZombie)))) else None
    case LZombie => Update(s, c, p, s.procs[p].(state := ZOMBIE), Thread(p, InExit(pp, XLate(LDropParent))))
    case LDropParent => Release(s, c, pp, Thread(p, InExit(pp, XSwitch)))
  }

  function DoThread(s: State, c: nat, p: nat, pc: Pc, a: Action): Option<State>
    requires Shape(s) && c < |s.cpus| && p < |s.procs|
  {
    if a.CallYield? then DoPreempt(s, c, p, pc) else
    match pc
    case Run => DoCall(s, c, p, a)
    case Resume(k) => DoResume(s, c, p, k)
    case InYield(y, sp) => DoYield(s, c, p, y, sp)
    case InSleep(ch, x, z) => DoSleep(s, c, p, ch, x, z)
    case InWake(ch, x, j, t) => DoWake(s, c, p, ch, x, j, t)
    case InKill(j, t, more) => DoKill(s, c, p, j, t, more, a)
    case InWait(w) => DoWait(s, c, p, w, a)
    case InFork(j, f) => DoFork(s, c, p, j, f, a)
    case InExit(pp, e) => DoExit(s, c, p, pp, e)
  }

  /** One step of CPU c. */
  function Do(s: State, c: nat, a: Action): Option<State>
    requires Shape(s)
  {
    if c >= |s.cpus| then None
    else
      match s.cpus[c].mode
      case Thread(p, pc) =>
        if Leaving(pc) then DoSched(s, c) else if p < |s.procs| then DoThread(s, c, p, pc, a) else None
      case _ => DoSched(s, c)
  }

  /** After userinit: init can run, every other slot is unused, every CPU is in scheduler. */
  predicate Init(s: State) {
    && Shape(s)
    && s.procs[INIT] == Proc(RUNNABLE, Option.None, Option.None, false, Option.None, true, NewProc)
    && (forall p :: 0 < p < |s.procs| ==> s.procs[p] == Proc(UNUSED, Option.None, Option.None, false, Option.None, false, NewProc))
    && (forall c :: 0 <= c < |s.cpus| ==> s.cpus[c] == Cpu(Scan(0), Option.None))
    && s.xlock == map[]
  }

  // ---------------------------------------------------------------------------------------
  // Core invariant: locks, CPUs and process states
  // ---------------------------------------------------------------------------------------

  /** Process lock i is held at a position in p's thread. */
  predicate ThreadOwns(p: nat, pc: Pc, i: nat) {
    match pc
    case Run => false
    case Resume(_) => i == p
    case InYield(y, _) => i == p && !y.YWant?
    case InSleep(_, _, z) => i == p && !z.SWant? && !z.SReacquire?
    case InWake(_, _, j, t) => i == j && !t.Lock?
    case InKill(j, t, _) => i == j && !t.Lock?
    case InWait(w) => !w.WWant? && (i == p || (w.WKid? && i == w.j && !w.k.KLock?))
    case InFork(j, f) => i == j && !f.FLock?
    case InExit(pp, e) => ExitOwns(p, pp, e, i)
  }

  predicate ExitOwns(p: nat, pp: nat, e: ExitPc, i: nat) {
    match e
    case XInit(t) => i == INIT && !t.Lock?
    case XWantOwn => false
    case XCopy => i == p
    case XDropOwn => i == p
    case XWantParent => false
    case XWantOwnAgain => i == pp
    case XLate(l) => i == p || i == pp || (l.LKid? && i == l.j && !l.t.Lock?)
    case XSwitch => i == p
  }

  predicate Owns(m: Mode, i: nat) {
    match m
    case Scan(_) => false
    case Have(j) => i == j
    case Load(j) => i == j
    case Loaded(j) => i == j
    case Thread(p, pc) => ThreadOwns(p, pc, i)
    case Back(j) => i == j
    case Dropping(j) => i == j
  }

  /** The process a CPU has picked and not yet left. */
  function Runs(m: Mode): Option<nat> {
    match m
    case Load(j) => Option.Some(j)
    case Loaded(j) => Option.Some(j)
    case Thread(p, _) => Option.Some(p)
    case _ => Option.None
  }

  /** The state of a process whose thread is at this position. */
  function StateAt(pc: Pc): PState {
    match pc
    case InYield(y, _) => if y.YSwitch? then RUNNABLE else RUNNING
    case InSleep(_, _, z) => if z.SSwitch? then SLEEPING else RUNNING
    case InWait(w) => if w.WSwitch? then SLEEPING else RUNNING
    case InExit(_, e) => if e.XSwitch? || e == XLate(LDropParent) then ZOMBIE else RUNNING
    case _ => RUNNING
  }

  predicate LockInv(s: State) {
    forall c, j :: 0 <= c < |s.cpus| && 0 <= j < |s.procs| ==>
      (s.procs[j].lock == Option.Some(c) <==> Owns(s.cpus[c].mode, j))
  }

  /** No process is on two CPUs. */
  predicate OneCpuInv(s: State) {
    forall c, d :: 0 <= c < |s.cpus| && 0 <= d < |s.cpus| && c != d && Runs(s.cpus[c].mode).Some? ==>
      Runs(s.cpus[c].mode) != Runs(s.cpus[d].mode)
  }

  /** What a CPU's position says about the processes it names. */
  predicate ModeOk(procs: seq<Proc>, m: Mode) {
    match m
    case Scan(j) => true
    case Have(j) => j < |procs|
    case Load(j) => j < |procs| && procs[j].state.RUNNING?
    case Loaded(j) => j < |procs| && procs[j].state.RUNNING?
    case Thread(p, pc) => p < |procs| && procs[p].state == StateAt(pc) && ThreadOk(procs, p, pc)
    case Back(j) => j < |procs| && !procs[j].state.UNUSED? && !procs[j].state.RUNNING?
    case Dropping(j) => j < |procs|
  }

  predicate ThreadOk(procs: seq<Proc>, p: nat, pc: Pc) {
    match pc
    case InWake(_, _, j, t) => t.Lock? || j < |procs|
    case InKill(j, t, _) => t.Lock? || j < |procs|
    case InWait(w) => w.WKid? ==> w.j < |procs| && (w.k.KLock? || w.j != p)
    case InFork(j, f) => f.FLock? || (j < |procs| && ForkOk(procs[j], p, f))
    case InExit(pp, e) => p != INIT && ExitOk(procs, p, pp, e)
    case InYield(_, sp) => p < |procs| && SpotOk(|procs|, p, procs[p], sp)
    case Resume(k) => k.YieldBack? ==> p < |procs| && SpotOk(|procs|, p, procs[p], k.sp)
    case _ => true
  }

  /** What a thread that has yielded at a spot inside exit still knows. */
  predicate SpotOk(n: nat, p: nat, q: Proc, sp: Spot) {
    sp.AtExit? ==>
      && p != INIT && IsExitSpot(sp.e)
      && (sp.e.XWantParent? ==> sp.pp < n && (q.parent == Option.Some(sp.pp) || q.parent == Option.Some(INIT)))
  }

  /** A slot being filled by fork is unused but for what fork has already written. */
  predicate ForkOk(q: Proc, p: nat, f: ForkPc) {
    && (f.FFill? || f.FParent? || f.FReady? ==> q.state.UNUSED?)
    && (f.FParent? || f.FReady? ==> q.kpt && q.cont.NewProc?)
    && (f.FReady? ==> q.parent == Option.Some(p))
  }

  /** exit's copy of the parent is the parent, unless that one gave the process to init; and it
      is awake by the time the process becomes a zombie. */
  predicate ExitOk(procs: seq<Proc>, p: nat, pp: nat, e: ExitPc) {
    && (e.XDropOwn? || e.XWantParent? || e.XWantOwnAgain? || e.XLate? ==> pp < |procs|)
    && (e.XDropOwn? || e.XWantParent? || e.XWantOwnAgain? || (e.XLate? && !e.l.LDropParent?) ==>
          p < |procs| && (procs[p].parent == Option.Some(pp) || procs[p].parent == Option.Some(INIT)))
    && (e.XLate? ==> pp != p)
    && (e.XLate? && e.l.LKid? ==> e.l.j < |procs| && e.l.j != INIT && (e.l.t.Lock? || (e.l.j != p && e.l.j != pp)))
    && (e.XLate? && e.l.LZombie? ==> pp < |procs| && !AsleepInWait(procs[pp]))
  }

  predicate AsleepInWait(q: Proc) {
    q.state.SLEEPING? && q.cont.WaitBack?
  }

  predicate ModeInv(s: State) {
    forall c :: 0 <= c < |s.cpus| ==> ModeOk(s.procs, s.cpus[c].mode)
  }

  /** The loaded kernel page table belongs to the process the CPU is still with. */
  predicate SatpOk(u: Cpu) {
    u.satp.Some? ==>
      || u.mode == Loaded(u.satp.value)
      || (u.mode.Thread? && u.mode.p == u.satp.value)
      || u.mode == Back(u.satp.value)
  }

  predicate SatpInv(s: State) {
    forall c :: 0 <= c < |s.cpus| ==> SatpOk(s.cpus[c])
  }

  predicate ProcOk(n: nat, p: nat, q: Proc) {
    && (p == INIT ==> !q.state.UNUSED? && !q.state.ZOMBIE? && q.parent.None?)
    && (!q.state.UNUSED? ==> q.kpt)
    && (!q.state.UNUSED? && p != INIT ==> q.parent.Some?)
    && (q.parent.Some? ==> q.parent.value < n)
    && (q.state.SLEEPING? ==> q.cont.SleepBack? || q.cont.WaitBack?)
    && (q.state.SLEEPING? && q.cont.SleepBack? ==> q.chan == Option.Some(Address(q.cont.ch)))
    && (q.state.SLEEPING? && q.cont.WaitBack? ==> q.chan == Option.Some(OfProc(p)))
    && (!q.state.UNUSED? && q.cont.YieldBack? ==> SpotOk(n, p, q, q.cont.sp))
  }

  predicate ProcInv(s: State) {
    forall p :: 0 <= p < |s.procs| ==> ProcOk(|s.procs|, p, s.procs[p])
  }

  predicate CoreInv(s: State) {
    Shape(s) && LockInv(s) && OneCpuInv(s) && ModeInv(s) && SatpInv(s) && ProcInv(s)
  }

  // ---------------------------------------------------------------------------------------
  // What a step has to respect
  // ---------------------------------------------------------------------------------------

  /** t differs from s in CPU c, in slot j and in the other locks only. */
  predicate Changes(s: State, t: State, c: nat, j: nat) {
    && c < |s.cpus| && j < |s.procs|
    && |t.cpus| == |s.cpus| && |t.procs| == |s.procs|
    && (forall d :: 0 <= d < |s.cpus| && d != c ==> t.cpus[d] == s.cpus[d])
    && (forall i :: 0 <= i < |s.procs| && i != j ==> t.procs[i] == s.procs[i])
  }

  /** Only slot j's lock may change hands, and only to or from the stepping CPU. */
  ghost predicate LockRule(s: State, t: State, c: nat, j: nat)
    requires Changes(s, t, c, j)
  {
    && (forall i: nat :: i != j ==> (Owns(t.cpus[c].mode, i) <==> Owns(s.cpus[c].mode, i)))
    && (t.procs[j].lock == Option.Some(c) <==> Owns(t.cpus[c].mode, j))
    && (|| t.procs[j].lock == s.procs[j].lock
        || (s.procs[j].lock.None? && t.procs[j].lock == Option.Some(c))
        || (s.procs[j].lock == Option.Some(c) && t.procs[j].lock.None?))
  }

  /** Contents of slot j change only under its lock; a running process is stopped only by its
      own thread and otherwise only given to init. */
  predicate SlotRule(s: State, t: State, c: nat, j: nat)
    requires Changes(s, t, c, j)
  {
    || t.procs[j] == s.procs[j].(lock := t.procs[j].lock)
    || (&& s.procs[j].lock == Option.Some(c)
        && (|| Runs(s.cpus[c].mode) == Option.Some(j)
            || !s.procs[j].state.RUNNING?
            || (t.procs[j].state.RUNNING? && (t.procs[j].parent == s.procs[j].parent || t.procs[j].parent == Option.Some(INIT)))))
  }

  lemma LocksFollow(s: State, t: State, c: nat, j: nat)
    requires LockInv(s) && Changes(s, t, c, j) && LockRule(s, t, c, j)
    ensures LockInv(t)
  {
  }

  lemma OneCpuFollows(s: State, t: State, c: nat, j: nat)
    requires OneCpuInv(s) && Changes(s, t, c, j)
    requires var r := Runs(t.cpus[c].mode);
             r.None? || r == Runs(s.cpus[c].mode)
             || forall d :: 0 <= d < |s.cpus| && d != c ==> Runs(s.cpus[d].mode) != r
    ensures OneCpuInv(t)
  {
  }

  /** A position that does not hold slot j's lock survives a change of j by SlotRule. */
  lemma SlotChangeOk(procs: seq<Proc>, procs': seq<Proc>, j: nat, m: Mode)
    requires ModeOk(procs, m) && j < |procs| == |procs'| && !Owns(m, j)
    requires forall i :: 0 <= i < |procs| && i != j ==> procs'[i] == procs[i]
    requires procs[j].state.RUNNING? ==>
               || Runs(m) != Option.Some(j)
               || (procs'[j].state.RUNNING? && (procs'[j].parent == procs[j].parent || procs'[j].parent == Option.Some(INIT)))
    ensures ModeOk(procs', m)
  {
  }

  lemma LockChangeOk(procs: seq<Proc>, procs': seq<Proc>, j: nat, m: Mode)
    requires ModeOk(procs, m) && j < |procs| == |procs'|
    requires forall i :: 0 <= i < |procs| && i != j ==> procs'[i] == procs[i]
    requires procs'[j] == procs[j].(lock := procs'[j].lock)
    ensures ModeOk(procs', m)
  {
  }

  lemma ModesFollow(s: State, t: State, c: nat, j: nat)
    requires LockInv(s) && OneCpuInv(s) && ModeInv(s) && Changes(s, t, c, j) && SlotRule(s, t, c, j)
    requires ModeOk(t.procs, t.cpus[c].mode)
    ensures ModeInv(t)
  {
    forall d | 0 <= d < |t.cpus| ensures ModeOk(t.procs, t.cpus[d].mode) {
      if d != c {
        assert ModeOk(s.procs, s.cpus[d].mode);
        if t.procs[j] == s.procs[j].(lock := t.procs[j].lock) {
          LockChangeOk(s.procs, t.procs, j, s.cpus[d].mode);
        } else {
          assert s.procs[j].lock == Option.Some(d) <==> Owns(s.cpus[d].mode, j);
          SlotChangeOk(s.procs, t.procs, j, s.cpus[d].mode);
        }
      }
    }
  }

  /** The step touches slot j as the locks allow, and keeps what is known about it. */
  ghost predicate Lawful(s: State, t: State, c: nat, j: nat) {
    && Changes(s, t, c, j) && LockRule(s, t, c, j) && SlotRule(s, t, c, j)
    && ModeOk(t.procs, t.cpus[c].mode) && SatpOk(t.cpus[c]) && ProcOk(|t.procs|, j, t.procs[j])
  }

  lemma CoreFollows(s: State, t: State, c: nat, j: nat)
    requires CoreInv(s) && Lawful(s, t, c, j)
    requires var r := Runs(t.cpus[c].mode);
             r.None? || r == Runs(s.cpus[c].mode)
             || forall d :: 0 <= d < |s.cpus| && d != c ==> Runs(s.cpus[d].mode) != r
    ensures CoreInv(t)
  {
    LocksFollow(s, t, c, j);
    OneCpuFollows(s, t, c, j);
    ModesFollow(s, t, c, j);
  }

  /** A process another CPU has picked is running, or its lock is held there. */
  lemma FreshPick(s: State, c: nat, j: nat, d: nat)
    requires CoreInv(s) && c < |s.cpus| && d < |s.cpus| && d != c && j < |s.procs|
    requires s.procs[j].lock == Option.Some(c) && !s.procs[j].state.RUNNING?
    ensures Runs(s.cpus[d].mode) != Option.Some(j)
  {
    assert ModeOk(s.procs, s.cpus[d].mode);
    assert s.procs[j].lock == Option.Some(d) <==> Owns(s.cpus[d].mode, j);
  }

  // ---------------------------------------------------------------------------------------
  // Every step is lawful
  // ---------------------------------------------------------------------------------------

  /** What the stepping CPU knows before the step. */
  predicate Knows(s: State, c: nat) {
    && Shape(s) && c < |s.cpus|
    && ModeOk(s.procs, s.cpus[c].mode) && SatpOk(s.cpus[c])
    && (forall i :: 0 <= i < |s.procs| ==> (s.procs[i].lock == Option.Some(c) <==> Owns(s.cpus[c].mode, i)))
    && ProcInv(s)
  }

  lemma PickIsLawful(s: State, c: nat, j: nat)
    requires Knows(s, c) && DoSched(s, c).Some?
    requires var m := s.cpus[c].mode; (m.Scan? || m.Have? || m.Load?) && m.j == j
    ensures Lawful(s, DoSched(s, c).value, c, j)
    ensures var r := Runs(DoSched(s, c).value.cpus[c].mode);
            r.None? || r == Runs(s.cpus[c].mode)
            || (r == Option.Some(j) && s.procs[j].lock == Option.Some(c) && !s.procs[j].state.RUNNING?)
  {
  }

  lemma SwitchIsLawful(s: State, c: nat, j: nat)
    requires Knows(s, c) && DoSched(s, c).Some?
    requires var m := s.cpus[c].mode; !m.Scan? && !m.Have? && !m.Load? && (if m.Thread? then m.p == j else m.j == j)
    ensures Lawful(s, DoSched(s, c).value, c, j)
    ensures var r := Runs(DoSched(s, c).value.cpus[c].mode); r.None? || r == Runs(s.cpus[c].mode)
  {
  }

  lemma SchedIsLawful(s: State, c: nat) returns (j: nat)
    requires Knows(s, c) && DoSched(s, c).Some?
    ensures Lawful(s, DoSched(s, c).value, c, j)
    ensures var r := Runs(DoSched(s, c).value.cpus[c].mode);
            r.None? || r == Runs(s.cpus[c].mode)
            || (r == Option.Some(j) && s.procs[j].lock == Option.Some(c) && !s.procs[j].state.RUNNING?)
  {
    var m := s.cpus[c].mode;
    j := if m.Thread? then m.p else m.j;
    if m.Scan? || m.Have? || m.Load? { PickIsLawful(s, c, j); } else { SwitchIsLawful(s, c, j); }
  }

  ghost predicate ThreadStep(s: State, t: State, c: nat, p: nat, j: nat) {
    Lawful(s, t, c, j) && t.cpus[c].mode.Thread? && t.cpus[c].mode.p == p
  }

  lemma CallIsLawful(s: State, c: nat, p: nat, a: Action)
    requires Knows(s, c) && s.cpus[c].mode == Thread(p, Run) && DoCall(s, c, p, a).Some?
    ensures ThreadStep(s, DoCall(s, c, p, a).value, c, p, p)
  {
  }

  lemma ResumeIsLawful(s: State, c: nat, p: nat, k: Cont)
    requires Knows(s, c) && s.cpus[c].mode == Thread(p, Resume(k)) && DoResume(s, c, p, k).Some?
    ensures ThreadStep(s, DoResume(s, c, p, k).value, c, p, p)
  {
  }

  lemma PreemptIsLawful(s: State, c: nat, p: nat, pc: Pc)
    requires Knows(s, c) && s.cpus[c].mode == Thread(p, pc) && DoPreempt(s, c, p, pc).Some?
    ensures ThreadStep(s, DoPreempt(s, c, p, pc).value, c, p, p)
  {
    SpotOwnsNothing(p, pc);
  }

  /** At a spot no process lock is held. */
  lemma SpotOwnsNothing(p: nat, pc: Pc)
    requires SpotOf(pc).Some?
    ensures PcAt(SpotOf(pc).value) == pc && StateAt(pc) == RUNNING && forall i: nat :: !ThreadOwns(p, pc, i)
  {
  }

  lemma YieldIsLawful(s: State, c: nat, p: nat, y: YieldPc, sp: Spot)
    requires Knows(s, c) && s.cpus[c].mode == Thread(p, InYield(y, sp)) && DoYield(s, c, p, y, sp).Some?
    ensures ThreadStep(s, DoYield(s, c, p, y, sp).value, c, p, p)
  {
  }

  lemma SleepIsLawful(s: State, c: nat, p: nat, ch: nat, x: nat, z: SleepPc)
    requires Knows(s, c) && s.cpus[c].mode == Thread(p, InSleep(ch, x, z)) && DoSleep(s, c, p, ch, x, z).Some?
    ensures ThreadStep(s, DoSleep(s, c, p, ch, x, z).value, c, p, p)
  {
  }

  lemma WakeIsLawful(s: State, c: nat, p: nat, ch: nat, x: nat, j: nat, t: Stage)
    requires Knows(s, c) && s.cpus[c].mode == Thread(p, InWake(ch, x, j, t)) && DoWake(s, c, p, ch, x, j, t).Some?
    ensures ThreadStep(s, DoWake(s, c, p, ch, x, j, t).value, c, p, if j < |s.procs| then j else p)
  {
  }

  lemma KillIsLawful(s: State, c: nat, p: nat, j: nat, t: Stage, more: bool, a: Action)
    requires Knows(s, c) && s.cpus[c].mode == Thread(p, InKill(j, t, more)) && DoKill(s, c, p, j, t, more, a).Some?
    ensures ThreadStep(s, DoKill(s, c, p, j, t, more, a).value, c, p, if j < |s.procs| then j else p)
  {
  }

  lemma WaitIsLawful(s: State, c: nat, p: nat, w: WaitPc, a: Action)
    requires Knows(s, c) && s.cpus[c].mode == Thread(p, InWait(w)) && DoWait(s, c, p, w, a).Some? && !w.WKid?
    ensures ThreadStep(s, DoWait(s, c, p, w, a).value, c, p, p)
  {
  }

  lemma KidLookIsLawful(s: State, c: nat, p: nat, j: nat, a: Action)
    requires Knows(s, c) && s.cpus[c].mode == Thread(p, InWait(WKid(j, KLook))) && DoWait(s, c, p, WKid(j, KLook), a).Some?
    ensures ThreadStep(s, DoWait(s, c, p, WKid(j, KLook), a).value, c, p, j)
  {
    assert ProcOk(|s.procs|, j, s.procs[j]);
  }

  lemma KidIsLawful(s: State, c: nat, p: nat, j: nat, k: KidPc, a: Action)
    requires Knows(s, c) && s.cpus[c].mode == Thread(p, InWait(WKid(j, k))) && DoWait(s, c, p, WKid(j, k), a).Some? && !k.KLook?
    ensures ThreadStep(s, DoWait(s, c, p, WKid(j, k), a).value, c, p, j)
  {
    assert s.procs[p].lock == Option.Some(c);
  }

  lemma ForkLockIsLawful(s: State, c: nat, p: nat, j: nat, f: ForkPc, a: Action)
    requires Knows(s, c) && s.cpus[c].mode == Thread(p, InFork(j, f)) && DoFork(s, c, p, j, f, a).Some?
    requires f.FLock? || f.FNext?
    ensures ThreadStep(s, DoFork(s, c, p, j, f, a).value, c, p, if j < |s.procs| then j else p)
  {
  }

  lemma ForkTestIsLawful(s: State, c: nat, p: nat, j: nat, f: ForkPc, a: Action)
    requires Knows(s, c) && s.cpus[c].mode == Thread(p, InFork(j, f)) && DoFork(s, c, p, j, f, a).Some?
    requires f.FTest? || f.FRelease?
    ensures ThreadStep(s, DoFork(s, c, p, j, f, a).value, c, p, j)
  {
    assert ProcOk(|s.procs|, j, s.procs[j]);
  }

  lemma ForkFillIsLawful(s: State, c: nat, p: nat, j: nat, f: ForkPc, a: Action)
    requires Knows(s, c) && s.cpus[c].mode == Thread(p, InFork(j, f)) && DoFork(s, c, p, j, f, a).Some?
    requires f.FFill? || f.FReady?
    ensures ThreadStep(s, DoFork(s, c, p, j, f, a).value, c, p, j)
  {
    assert ProcOk(|s.procs|, j, s.procs[j]);
  }

  lemma ForkParentIsLawful(s: State, c: nat, p: nat, j: nat, f: ForkPc, a: Action)
    requires Knows(s, c) && s.cpus[c].mode == Thread(p, InFork(j, f)) && DoFork(s, c, p, j, f, a).Some?
    requires f.FParent?
    ensures ThreadStep(s, DoFork(s, c, p, j, f, a).value, c, p, j)
  {
    assert ProcOk(|s.procs|, j, s.procs[j]);
  }

  lemma ExitInitIsLawful(s: State, c: nat, p: nat, pp: nat, t: Stage)
    requires Knows(s, c) && s.cpus[c].mode == Thread(p, InExit(pp, XInit(t))) && DoExit(s, c, p, pp, XInit(t)).Some?
    ensures ThreadStep(s, DoExit(s, c, p, pp, XInit(t)).value, c, p, INIT)
  {
    if t.Look? {
      assert ProcOk(|s.procs|, INIT, s.procs[INIT]);
    }
  }

  lemma ExitOwnIsLawful(s: State, c: nat, p: nat, pp: nat, e: ExitPc)
    requires Knows(s, c) && s.cpus[c].mode == Thread(p, InExit(pp, e)) && DoExit(s, c, p, pp, e).Some?
    requires e.XWantOwn? || e.XCopy? || e.XDropOwn?
    ensures ThreadStep(s, DoExit(s, c, p, pp, e).value, c, p, p)
  {
    assert ProcOk(|s.procs|, p, s.procs[p]);
  }

  lemma ExitParentIsLawful(s: State, c: nat, p: nat, pp: nat, e: ExitPc)
    requires Knows(s, c) && s.cpus[c].mode == Thread(p, InExit(pp, e)) && DoExit(s, c, p, pp, e).Some?
    requires e.XWantParent? || e.XWantOwnAgain?
    ensures ThreadStep(s, DoExit(s, c, p, pp, e).value, c, p, if e.XWantParent? then pp else p)
  {
    assert e.XWantOwnAgain? ==> s.procs[pp].lock == Option.Some(c);
  }

  lemma ReparentScanIsLawful(s: State, c: nat, p: nat, pp: nat, i: nat)
    requires Knows(s, c) && s.cpus[c].mode == Thread(p, InExit(pp, XLate(LScan(i)))) && DoLate(s, c, p, pp, LScan(i)).Some?
    ensures ThreadStep(s, DoLate(s, c, p, pp, LScan(i)).value, c, p, p)
  {
  }

  lemma ReparentLockIsLawful(s: State, c: nat, p: nat, pp: nat, j: nat)
    requires Knows(s, c) && s.cpus[c].mode == Thread(p, InExit(pp, XLate(LKid(j, Lock)))) && DoLate(s, c, p, pp, LKid(j, Lock)).Some?
    ensures ThreadStep(s, DoLate(s, c, p, pp, LKid(j, Lock)).value, c, p, j)
  {
    assert s.procs[p].lock == Option.Some(c) && s.procs[pp].lock == Option.Some(c);
  }

  lemma ReparentGiveIsLawful(s: State, c: nat, p: nat, pp: nat, j: nat)
    requires Knows(s, c) && s.cpus[c].mode == Thread(p, InExit(pp, XLate(LKid(j, Look)))) && DoLate(s, c, p, pp, LKid(j, Look)).Some?
    ensures ThreadStep(s, DoLate(s, c, p, pp, LKid(j, Look)).value, c, p, j)
  {
    assert ProcOk(|s.procs|, j, s.procs[j]);
  }

  lemma ReparentUnlockIsLawful(s: State, c: nat, p: nat, pp: nat, j: nat)
    requires Knows(s, c) && s.cpus[c].mode == Thread(p, InExit(pp, XLate(LKid(j, Unlock)))) && DoLate(s, c, p, pp, LKid(j, Unlock)).Some?
    ensures ThreadStep(s, DoLate(s, c, p, pp, LKid(j, Unlock)).value, c, p, j)
  {
  }

  lemma WakeParentIsLawful(s: State, c: nat, p: nat, pp: nat)
    requires Knows(s, c) && s.cpus[c].mode == Thread(p, InExit(pp, XLate(LWake))) && DoLate(s, c, p, pp, LWake).Some?
    ensures ThreadStep(s, DoLate(s, c, p, pp, LWake).value, c, p, pp)
  {
    assert ProcOk(|s.procs|, pp, s.procs[pp]);
  }

  lemma ZombieIsLawful(s: State, c: nat, p: nat, pp: nat, l: LatePc)
    requires Knows(s, c) && s.cpus[c].mode == Thread(p, InExit(pp, XLate(l))) && DoLate(s, c, p, pp, l).Some?
    requires l.LZombie? || l.LDropParent?
    ensures ThreadStep(s, DoLate(s, c, p, pp, l).value, c, p, if l.LZombie? then p else pp)
  {
    assert ProcOk(|s.procs|, p, s.procs[p]);
  }

  lemma LateIsLawful(s: State, c: nat, p: nat, pp: nat, l: LatePc) returns (j: nat)
    requires Knows(s, c) && s.cpus[c].mode == Thread(p, InExit(pp, XLate(l))) && DoLate(s, c, p, pp, l).Some?
    ensures ThreadStep(s, DoLate(s, c, p, pp, l).value, c, p, j)
  {
    if l.LScan? {
      ReparentScanIsLawful(s, c, p, pp, l.i);
      j := p;
    } else if l.LKid? {
      if l.t.Lock? {
        ReparentLockIsLawful(s, c, p, pp, l.j);
      } else if l.t.Look? {
        ReparentGiveIsLawful(s, c, p, pp, l.j);
      } else {
        ReparentUnlockIsLawful(s, c, p, pp, l.j);
      }
      j := l.j;
    } else if l.LWake? {
      WakeParentIsLawful(s, c, p, pp);
      j := pp;
    } else {
      ZombieIsLawful(s, c, p, pp, l);
      j := if l.LZombie? then p else pp;
    }
  }

  /** Every step is lawful, and names the slot it touches. */
  lemma ThreadIsLawful(s: State, c: nat, p: nat, pc: Pc, a: Action) returns (j: nat)
    requires Knows(s, c) && s.cpus[c].mode == Thread(p, pc) && DoThread(s, c, p, pc, a).Some?
    ensures ThreadStep(s, DoThread(s, c, p, pc, a).value, c, p, j)
  {
    j := p;
    if a.CallYield? {
      PreemptIsLawful(s, c, p, pc);
      return;
    }
    match pc
    case Run => CallIsLawful(s, c, p, a);
    case Resume(k) => ResumeIsLawful(s, c, p, k);
    case InYield(y, sp) => YieldIsLawful(s, c, p, y, sp);
    case InSleep(ch, x, z) => SleepIsLawful(s, c, p, ch, x, z);
    case InWake(ch, x, i, t) => WakeIsLawful(s, c, p, ch, x, i, t); j := if i < |s.procs| then i else p;
    case InKill(i, t, more) => KillIsLawful(s, c, p, i, t, more, a); j := if i < |s.procs| then i else p;
    case InWait(w) =>
      if w.WKid? {
        if w.k.KLook? { KidLookIsLawful(s, c, p, w.j, a); } else { KidIsLawful(s, c, p, w.j, w.k, a); }
        j := w.j;
      } else {
        WaitIsLawful(s, c, p, w, a);
      }
    case InFork(i, f) =>
      if f.FLock? || f.FNext? {
        ForkLockIsLawful(s, c, p, i, f, a);
      } else if f.FTest? || f.FRelease? {
        ForkTestIsLawful(s, c, p, i, f, a);
      } else if f.FParent? {
        ForkParentIsLawful(s, c, p, i, f, a);
      } else {
        ForkFillIsLawful(s, c, p, i, f, a);
      }
      j := if i < |s.procs| then i else p;
    case InExit(pp, e) =>
      if e.XInit? {
        ExitInitIsLawful(s, c, p, pp, e.t);
        j := INIT;
      } else if e.XLate? {
        j := LateIsLawful(s, c, p, pp, e.l);
      } else if e.XWantParent? || e.XWantOwnAgain? {
        ExitParentIsLawful(s, c, p, pp, e);
        j := if e.XWantParent? then pp else p;
      } else {
        ExitOwnIsLawful(s, c, p, pp, e);
      }
  }

  lemma StepKeepsCore(s: State, c: nat, a: Action)
    requires CoreInv(s) && Do(s, c, a).Some?
    ensures CoreInv(Do(s, c, a).value)
  {
    var t := Do(s, c, a).value;
    var m := s.cpus[c].mode;
    if m.Thread? && !Leaving(m.pc) {
      var j := ThreadIsLawful(s, c, m.p, m.pc, a);
      CoreFollows(s, t, c, j);
    } else {
      var j := SchedIsLawful(s, c);
      if s.procs[j].lock == Option.Some(c) && !s.procs[j].state.RUNNING? {
        forall d | 0 <= d < |s.cpus| && d != c ensures Runs(s.cpus[d].mode) != Option.Some(j) {
          FreshPick(s, c, j, d);
        }
      }
      CoreFollows(s, t, c, j);
    }
  }

  // ---------------------------------------------------------------------------------------
  // What a step does to one slot
  // ---------------------------------------------------------------------------------------

  /** The only ways in which a step of CPU c changes the parent, the end of life, and the sleep
      of slot i. */
  predicate Effect(s: State, t: State, c: nat, i: nat)
    requires c < |s.cpus| && i < |s.procs| == |t.procs|
  {
    var q, q', m := s.procs[i], t.procs[i], s.cpus[c].mode;
    && (q'.parent != q.parent ==>
          || q'.parent.None?
          || q'.parent == Option.Some(INIT)
          || (m.Thread? && m.pc == InFork(i, FParent) && q'.parent == Option.Some(m.p)))
    && (q'.state.ZOMBIE? && !q.state.ZOMBIE? ==> m.Thread? && m.p == i && m.pc.InExit? && m.pc.e == XLate(LZombie))
    && (q'.state.UNUSED? && !q.state.UNUSED? ==> q.state.ZOMBIE?)
    && (q.state.SLEEPING? ==> q'.state.RUNNABLE? || (q'.state.SLEEPING? && q'.cont == q.cont))
    && (AsleepInWait(q') && !AsleepInWait(q) ==> m == Thread(i, InWait(WMark)))
    && (q'.state.SLEEPING? && q'.cont.SleepBack? && !(q.state.SLEEPING? && q.cont == q'.cont) ==>
          m == Thread(i, InSleep(q'.cont.ch, q'.cont.x, SMark)))
  }

  lemma PreemptFacts(s: State, c: nat, p: nat, pc: Pc)
    requires c < |s.cpus| && DoPreempt(s, c, p, pc).Some?
    ensures var t := DoPreempt(s, c, p, pc).value;
            t.procs == s.procs && t.xlock == s.xlock && |t.cpus| == |s.cpus| && t.cpus[c].mode.Thread? && t.cpus[c].mode.pc.InYield?
  {
  }

  lemma SchedEffect(s: State, c: nat, i: nat)
    requires c < |s.cpus| && i < |s.procs| && ModeOk(s.procs, s.cpus[c].mode) && DoSched(s, c).Some?
    ensures |DoSched(s, c).value.procs| == |s.procs| && Effect(s, DoSched(s, c).value, c, i)
  {
  }

  lemma SleepEffect(s: State, c: nat, p: nat, pc: Pc, a: Action, i: nat)
    requires Shape(s) && c < |s.cpus| && s.cpus[c].mode == Thread(p, pc) && p < |s.procs| && i < |s.procs|
    requires ModeOk(s.procs, s.cpus[c].mode)
    requires !a.CallYield? && DoThread(s, c, p, pc, a).Some? && (pc.Run? || pc.Resume? || pc.InYield? || pc.InSleep? || pc.InWake? || pc.InKill?)
    ensures |DoThread(s, c, p, pc, a).value.procs| == |s.procs| && Effect(s, DoThread(s, c, p, pc, a).value, c, i)
  {
  }

  lemma WaitEffect(s: State, c: nat, p: nat, w: WaitPc, a: Action, i: nat)
    requires c < |s.cpus| && s.cpus[c].mode == Thread(p, InWait(w)) && p < |s.procs| && i < |s.procs|
    requires ModeOk(s.procs, s.cpus[c].mode) && DoWait(s, c, p, w, a).Some?
    ensures |DoWait(s, c, p, w, a).value.procs| == |s.procs| && Effect(s, DoWait(s, c, p, w, a).value, c, i)
  {
  }

  lemma ForkEffect(s: State, c: nat, p: nat, j: nat, f: ForkPc, a: Action, i: nat)
    requires c < |s.cpus| && s.cpus[c].mode == Thread(p, InFork(j, f)) && p < |s.procs| && i < |s.procs|
    requires ModeOk(s.procs, s.cpus[c].mode) && DoFork(s, c, p, j, f, a).Some?
    ensures |DoFork(s, c, p, j, f, a).value.procs| == |s.procs| && Effect(s, DoFork(s, c, p, j, f, a).value, c, i)
  {
  }

  lemma ExitEffect(s: State, c: nat, p: nat, pp: nat, e: ExitPc, i: nat)
    requires Shape(s) && c < |s.cpus| && s.cpus[c].mode == Thread(p, InExit(pp, e)) && p < |s.procs| && i < |s.procs|
    requires ModeOk(s.procs, s.cpus[c].mode) && DoExit(s, c, p, pp, e).Some?
    ensures |DoExit(s, c, p, pp, e).value.procs| == |s.procs| && Effect(s, DoExit(s, c, p, pp, e).value, c, i)
  {
  }

  lemma StepEffect(s: State, c: nat, a: Action, i: nat)
    requires CoreInv(s) && Do(s, c, a).Some? && i < |s.procs|
    ensures |Do(s, c, a).value.procs| == |s.procs| && Effect(s, Do(s, c, a).value, c, i)
  {
    var m := s.cpus[c].mode;
    if m.Thread? && !Leaving(m.pc) && a.CallYield? {
      PreemptFacts(s, c, m.p, m.pc);
    } else if m.Thread? && !Leaving(m.pc) {
      match m.pc
      case InWait(w) => WaitEffect(s, c, m.p, w, a, i);
      case InFork(j, f) => ForkEffect(s, c, m.p, j, f, a, i);
      case InExit(pp, e) => ExitEffect(s, c, m.p, pp, e, i);
      case _ => SleepEffect(s, c, m.p, m.pc, a, i);
    } else {
      SchedEffect(s, c, i);
    }
  }

  lemma StepChanges(s: State, c: nat, a: Action) returns (j: nat)
    requires CoreInv(s) && Do(s, c, a).Some?
    ensures Changes(s, Do(s, c, a).value, c, j)
  {
    var m := s.cpus[c].mode;
    if m.Thread? && !Leaving(m.pc) {
      j := ThreadIsLawful(s, c, m.p, m.pc, a);
    } else {
      j := SchedIsLawful(s, c);
    }
  }

  // ---------------------------------------------------------------------------------------
  // Families
  // ---------------------------------------------------------------------------------------

  /** None of the first n slots is a child of p, respectively a zombie child of p. */
  predicate NoKids(procs: seq<Proc>, p: nat, n: nat) {
    forall i :: 0 <= i < n && i < |procs| ==> procs[i].parent != Option.Some(p)
  }

  predicate NoZombieKids(procs: seq<Proc>, p: nat, n: nat) {
    forall i :: 0 <= i < n && i < |procs| && procs[i].parent == Option.Some(p) ==> !procs[i].state.ZOMBIE?
  }

  /** How far reparent has got. */
  function Reparented(procs: seq<Proc>, l: LatePc): nat {
    match l
    case LScan(i) => i
    case LKid(j, t) => if t.Unlock? then j + 1 else j
    case _ => |procs|
  }

  /** How far wait's scan has found no zombie. */
  function Scanned(procs: seq<Proc>, w: WaitPc): nat {
    match w
    case WScan(i, _) => i
    case WKid(j, k) => if k.KNext? then j + 1 else if k.KDone? then 0 else j
    case WMark => |procs|
    case _ => 0
  }

  predicate KidsOk(procs: seq<Proc>, m: Mode) {
    m.Thread? ==>
      && (m.pc.InExit? && m.pc.e.XLate? ==> NoKids(procs, m.p, Reparented(procs, m.pc.e.l)))
      && (m.pc.InWait? && m.p != INIT ==> NoZombieKids(procs, m.p, Scanned(procs, m.pc.w)))
  }

  predicate FamilyInv(s: State) {
    && (forall p :: 0 <= p < |s.procs| && (s.procs[p].state.UNUSED? || s.procs[p].state.ZOMBIE?) ==> NoKids(s.procs, p, |s.procs|))
    && (forall p :: 0 < p < |s.procs| && AsleepInWait(s.procs[p]) ==> NoZombieKids(s.procs, p, |s.procs|))
    && (forall c :: 0 <= c < |s.cpus| ==> KidsOk(s.procs, s.cpus[c].mode))
  }

  /** A slot becomes a child of p only by p's own fork. */
  lemma NewKid(s: State, c: nat, a: Action, i: nat, p: nat)
    requires CoreInv(s) && Do(s, c, a).Some? && i < |s.procs| && p != INIT
    ensures var t := Do(s, c, a).value;
            |t.procs| == |s.procs|
            && (t.procs[i].parent == Option.Some(p) && s.procs[i].parent != Option.Some(p) ==> s.cpus[c].mode == Thread(p, InFork(i, FParent)))
  {
    StepEffect(s, c, a, i);
  }

  /** No child of p becomes a zombie while another CPU, or p itself, holds p's lock. */
  lemma NoNewZombieKid(s: State, c: nat, a: Action, i: nat, p: nat)
    requires CoreInv(s) && Do(s, c, a).Some? && i < |s.procs| && p < |s.procs| && p != INIT
    requires s.procs[i].parent == Option.Some(p) && !s.procs[i].state.ZOMBIE?
    ensures var t := Do(s, c, a).value;
            |t.procs| == |s.procs|
            && (t.procs[i].state.ZOMBIE? ==>
                  s.procs[p].lock == Option.Some(c) && s.cpus[c].mode == Thread(i, InExit(p, XLate(LZombie))) && !AsleepInWait(s.procs[p]))
  {
    StepEffect(s, c, a, i);
    assert ModeOk(s.procs, s.cpus[c].mode);
    assert s.procs[p].lock == Option.Some(c) <==> Owns(s.cpus[c].mode, p);
  }

  lemma OtherKidsOk(s: State, c: nat, a: Action, d: nat)
    requires CoreInv(s) && FamilyInv(s) && Do(s, c, a).Some? && d < |s.cpus| && d != c
    ensures KidsOk(Do(s, c, a).value.procs, s.cpus[d].mode)
  {
    var t := Do(s, c, a).value;
    var m := s.cpus[d].mode;
    assert KidsOk(s.procs, m) && ModeOk(s.procs, m);
    if m.Thread? && m.p != INIT {
      StepEffect(s, c, a, m.p);
      forall i | 0 <= i < |s.procs|
        ensures t.procs[i].parent == Option.Some(m.p) ==> s.procs[i].parent == Option.Some(m.p)
        ensures (m.pc.InWait? && Scanned(s.procs, m.pc.w) > 0 && s.procs[i].parent == Option.Some(m.p) && !s.procs[i].state.ZOMBIE?) ==>
                  !t.procs[i].state.ZOMBIE?
      {
        NewKid(s, c, a, i, m.p);
        if s.procs[i].parent == Option.Some(m.p) && !s.procs[i].state.ZOMBIE? {
          NoNewZombieKid(s, c, a, i, m.p);
          assert s.procs[m.p].lock == Option.Some(d) <==> Owns(m, m.p);
        }
      }
    }
  }

  lemma WaitKidsOk(s: State, c: nat, p: nat, w: WaitPc, a: Action)
    requires Shape(s) && c < |s.cpus| && p < |s.procs| && ModeOk(s.procs, s.cpus[c].mode) && s.cpus[c].mode == Thread(p, InWait(w)) && DoWait(s, c, p, w, a).Some?
    requires KidsOk(s.procs, s.cpus[c].mode)
    ensures var t := DoWait(s, c, p, w, a).value; |t.cpus| == |s.cpus| && KidsOk(t.procs, t.cpus[c].mode)
  {
  }

  lemma LateKidsOk(s: State, c: nat, p: nat, pp: nat, l: LatePc)
    requires Shape(s) && c < |s.cpus| && p < |s.procs| && ModeOk(s.procs, s.cpus[c].mode) && s.cpus[c].mode == Thread(p, InExit(pp, XLate(l))) && DoLate(s, c, p, pp, l).Some?
    requires KidsOk(s.procs, s.cpus[c].mode)
    ensures var t := DoLate(s, c, p, pp, l).value; |t.cpus| == |s.cpus| && KidsOk(t.procs, t.cpus[c].mode)
  {
  }

  /** No family scan has passed a slot yet. */
  predicate Fresh(m: Mode) {
    m.Thread? ==>
      && (m.pc.InWait? ==> m.pc.w == WWant || m.pc.w == WScan(0, false))
      && (m.pc.InExit? && m.pc.e.XLate? ==> m.pc.e.l == LScan(0))
  }

  lemma SchedIsFresh(s: State, c: nat)
    requires c < |s.cpus| && DoSched(s, c).Some?
    ensures |DoSched(s, c).value.cpus| == |s.cpus| && Fresh(DoSched(s, c).value.cpus[c].mode)
  {
  }

  lemma SleepIsFresh(s: State, c: nat, p: nat, pc: Pc, a: Action)
    requires Shape(s) && c < |s.cpus| && s.cpus[c].mode == Thread(p, pc) && p < |s.procs| && DoThread(s, c, p, pc, a).Some?
    requires !a.CallYield? && ModeOk(s.procs, s.cpus[c].mode) && (pc.Run? || pc.Resume? || pc.InYield? || pc.InSleep? || pc.InWake?)
    ensures |DoThread(s, c, p, pc, a).value.cpus| == |s.cpus| && Fresh(DoThread(s, c, p, pc, a).value.cpus[c].mode)
  {
  }

  lemma OtherIsFresh(s: State, c: nat, p: nat, pc: Pc, a: Action)
    requires Shape(s) && c < |s.cpus| && s.cpus[c].mode == Thread(p, pc) && p < |s.procs| && DoThread(s, c, p, pc, a).Some?
    requires !a.CallYield? && (pc.InKill? || pc.InFork? || (pc.InExit? && !pc.e.XLate?))
    ensures |DoThread(s, c, p, pc, a).value.cpus| == |s.cpus| && Fresh(DoThread(s, c, p, pc, a).value.cpus[c].mode)
  {
  }

  lemma FreshKidsOk(procs: seq<Proc>, m: Mode)
    requires Fresh(m)
    ensures KidsOk(procs, m)
  {
  }

  lemma ThreadKidsOk(s: State, c: nat, p: nat, pc: Pc, a: Action)
    requires Knows(s, c) && s.cpus[c].mode == Thread(p, pc) && DoThread(s, c, p, pc, a).Some?
    requires KidsOk(s.procs, s.cpus[c].mode)
    ensures var t := DoThread(s, c, p, pc, a).value; |t.cpus| == |s.cpus| && KidsOk(t.procs, t.cpus[c].mode)
  {
    if a.CallYield? {
      PreemptFacts(s, c, p, pc);
    } else if pc.InWait? {
      WaitKidsOk(s, c, p, pc.w, a);
    } else if pc.InExit? && pc.e.XLate? {
      LateKidsOk(s, c, p, pc.pp, pc.e.l);
    } else {
      if pc.InKill? || pc.InFork? || pc.InExit? { OtherIsFresh(s, c, p, pc, a); } else { SleepIsFresh(s, c, p, pc, a); }
      var t := DoThread(s, c, p, pc, a).value;
      FreshKidsOk(t.procs, t.cpus[c].mode);
    }
  }

  lemma OwnKidsOk(s: State, c: nat, a: Action)
    requires CoreInv(s) && FamilyInv(s) && Do(s, c, a).Some?
    ensures var t := Do(s, c, a).value; |t.cpus| == |s.cpus| && KidsOk(t.procs, t.cpus[c].mode)
  {
    var t := Do(s, c, a).value;
    var m := s.cpus[c].mode;
    if m.Thread? && !Leaving(m.pc) {
      ThreadKidsOk(s, c, m.p, m.pc, a);
    } else {
      SchedIsFresh(s, c);
      FreshKidsOk(t.procs, t.cpus[c].mode);
    }
  }

  lemma StepKeepsFamily(s: State, c: nat, a: Action)
    requires CoreInv(s) && FamilyInv(s) && Do(s, c, a).Some?
    ensures FamilyInv(Do(s, c, a).value)
  {
    var t := Do(s, c, a).value;
    StepKeepsCore(s, c, a);
    var j := StepChanges(s, c, a);
    forall d | 0 <= d < |t.cpus| ensures KidsOk(t.procs, t.cpus[d].mode) {
      if d == c { OwnKidsOk(s, c, a); } else { OtherKidsOk(s, c, a, d); }
    }
    forall p | 0 <= p < |t.procs| && (t.procs[p].state.UNUSED? || t.procs[p].state.ZOMBIE?) ensures NoKids(t.procs, p, |t.procs|) {
      EndedHasNoKids(s, c, a, p);
    }
    forall p | 0 < p < |t.procs| && AsleepInWait(t.procs[p]) ensures NoZombieKids(t.procs, p, |t.procs|) {
      AsleepHasNoZombies(s, c, a, p);
    }
  }

  lemma EndedHasNoKids(s: State, c: nat, a: Action, p: nat)
    requires CoreInv(s) && FamilyInv(s) && Do(s, c, a).Some? && CoreInv(Do(s, c, a).value)
    requires var t := Do(s, c, a).value; p < |t.procs| == |s.procs| && (t.procs[p].state.UNUSED? || t.procs[p].state.ZOMBIE?)
    ensures var t := Do(s, c, a).value; NoKids(t.procs, p, |t.procs|)
  {
    var t := Do(s, c, a).value;
    StepEffect(s, c, a, p);
    assert p != INIT by { assert ProcOk(|t.procs|, p, t.procs[p]); }
    assert ModeOk(s.procs, s.cpus[c].mode) && KidsOk(s.procs, s.cpus[c].mode);
    forall i | 0 <= i < |t.procs| ensures t.procs[i].parent != Option.Some(p) {
      NewKid(s, c, a, i, p);
    }
  }

  lemma AsleepHasNoZombies(s: State, c: nat, a: Action, p: nat)
    requires CoreInv(s) && FamilyInv(s) && Do(s, c, a).Some?
    requires var t := Do(s, c, a).value; 0 < p < |t.procs| == |s.procs| && AsleepInWait(t.procs[p])
    ensures var t := Do(s, c, a).value; NoZombieKids(t.procs, p, |t.procs|)
  {
    var t := Do(s, c, a).value;
    StepEffect(s, c, a, p);
    assert ModeOk(s.procs, s.cpus[c].mode) && KidsOk(s.procs, s.cpus[c].mode);
    forall i | 0 <= i < |t.procs| && t.procs[i].parent == Option.Some(p) ensures !t.procs[i].state.ZOMBIE? {
      NewKid(s, c, a, i, p);
      if s.procs[i].parent == Option.Some(p) && !s.procs[i].state.ZOMBIE? {
        NoNewZombieKid(s, c, a, i, p);
      }
    }
  }

  // ---------------------------------------------------------------------------------------
  // Wakeups
  // ---------------------------------------------------------------------------------------

  /** q has released x inside sleep(ch, x) and nobody has made it runnable since. */
  ghost predicate Asleep(s: State, q: nat, ch: nat, x: nat)
    requires q < |s.procs|
  {
    || (s.procs[q].state.SLEEPING? && s.procs[q].cont == SleepBack(ch, x))
    || (exists c :: 0 <= c < |s.cpus| && s.cpus[c].mode == Thread(q, InSleep(ch, x, SMark)))
  }

  /** The slots a wakeup has already dealt with. */
  function Woke(j: nat, t: Stage): nat {
    if t.Unlock? then j + 1 else j
  }

  ghost predicate WakeOk(s: State, c: nat)
    requires c < |s.cpus|
  {
    var m := s.cpus[c].mode;
    m.Thread? ==>
      && (m.pc.InSleep? && (m.pc.z.SWant? || m.pc.z.SDropX?) ==> m.pc.x in s.xlock && s.xlock[m.pc.x] == m.p)
      && (m.pc.InWake? ==>
            && m.pc.x in s.xlock && s.xlock[m.pc.x] == m.p
            && forall q: nat :: q < |s.procs| && q < Woke(m.pc.j, m.pc.t) ==> !Asleep(s, q, m.pc.ch, m.pc.x))
  }

  ghost predicate WakeInv(s: State) {
    forall c :: 0 <= c < |s.cpus| ==> WakeOk(s, c)
  }

  /** The position is in no wakeup and not on the way into a sleep. */
  predicate Quiet(m: Mode) {
    m.Thread? ==> !m.pc.InWake? && !(m.pc.InSleep? && (m.pc.z.SWant? || m.pc.z.SDropX? || m.pc.z.SMark?))
  }

  predicate QuietStep(s: State, t: State, c: nat) {
    c < |t.cpus| && t.xlock == s.xlock && Quiet(t.cpus[c].mode)
  }

  lemma SchedIsQuiet(s: State, c: nat)
    requires c < |s.cpus| && DoSched(s, c).Some?
    ensures QuietStep(s, DoSched(s, c).value, c)
  {
  }

  lemma ThreadIsQuiet(s: State, c: nat, p: nat, pc: Pc, a: Action)
    requires Shape(s) && c < |s.cpus| && s.cpus[c].mode == Thread(p, pc) && p < |s.procs| && DoThread(s, c, p, pc, a).Some?
    requires !a.CallYield? && (pc.Resume? || pc.InYield? || pc.InKill? || pc.InFork?)
    ensures QuietStep(s, DoThread(s, c, p, pc, a).value, c)
  {
  }

  lemma WaitIsQuiet(s: State, c: nat, p: nat, w: WaitPc, a: Action)
    requires c < |s.cpus| && s.cpus[c].mode == Thread(p, InWait(w)) && p < |s.procs| && DoWait(s, c, p, w, a).Some?
    ensures QuietStep(s, DoWait(s, c, p, w, a).value, c)
  {
  }

  lemma ExitIsQuiet(s: State, c: nat, p: nat, pp: nat, e: ExitPc)
    requires Shape(s) && c < |s.cpus| && s.cpus[c].mode == Thread(p, InExit(pp, e)) && p < |s.procs| && DoExit(s, c, p, pp, e).Some?
    ensures QuietStep(s, DoExit(s, c, p, pp, e).value, c)
  {
  }

  /** Steps outside of calls, sleep and wakeup. */
  predicate Elsewhere(m: Mode) {
    m.Thread? ==> Leaving(m.pc) || m.pc.Resume? || m.pc.InYield? || m.pc.InKill? || m.pc.InFork? || m.pc.InWait? || m.pc.InExit?
  }

  lemma ElsewhereIsQuiet(s: State, c: nat, a: Action)
    requires CoreInv(s) && Do(s, c, a).Some? && Elsewhere(s.cpus[c].mode)
    ensures QuietStep(s, Do(s, c, a).value, c)
  {
    var m := s.cpus[c].mode;
    if m.Thread? && !Leaving(m.pc) && a.CallYield? {
      PreemptFacts(s, c, m.p, m.pc);
    } else if m.Thread? && !Leaving(m.pc) {
      if m.pc.InWait? {
        WaitIsQuiet(s, c, m.p, m.pc.w, a);
      } else if m.pc.InExit? {
        ExitIsQuiet(s, c, m.p, m.pc.pp, m.pc.e);
      } else {
        ThreadIsQuiet(s, c, m.p, m.pc, a);
      }
    } else {
      SchedIsQuiet(s, c);
    }
  }

  lemma EntersMark(s: State, c: nat, a: Action, q: nat, ch: nat, x: nat)
    requires CoreInv(s) && Do(s, c, a).Some? && c < |Do(s, c, a).value.cpus|
    requires Do(s, c, a).value.cpus[c].mode == Thread(q, InSleep(ch, x, SMark))
    ensures s.cpus[c].mode == Thread(q, InSleep(ch, x, SDropX))
  {
    if Elsewhere(s.cpus[c].mode) {
      ElsewhereIsQuiet(s, c, a);
    }
  }

  /** A process enters the sleep only by giving up x. */
  lemma FallsAsleep(s: State, c: nat, a: Action, q: nat, ch: nat, x: nat)
    requires CoreInv(s) && Do(s, c, a).Some? && q < |s.procs| && q < |Do(s, c, a).value.procs|
    requires Asleep(Do(s, c, a).value, q, ch, x) && !Asleep(s, q, ch, x)
    ensures s.cpus[c].mode == Thread(q, InSleep(ch, x, SDropX))
  {
    var t := Do(s, c, a).value;
    StepEffect(s, c, a, q);
    if !(t.procs[q].state.SLEEPING? && t.procs[q].cont == SleepBack(ch, x)) {
      var j := StepChanges(s, c, a);
      var d :| 0 <= d < |t.cpus| && t.cpus[d].mode == Thread(q, InSleep(ch, x, SMark));
      if d == c {
        EntersMark(s, c, a, q, ch, x);
      }
    }
  }

  /** A process leaves the sleep only by becoming runnable. */
  lemma LeavesWoken(s: State, c: nat, a: Action, q: nat, ch: nat, x: nat)
    requires CoreInv(s) && Do(s, c, a).Some? && q < |s.procs| && Asleep(s, q, ch, x)
    ensures q < |Do(s, c, a).value.procs|
    ensures Asleep(Do(s, c, a).value, q, ch, x) || Do(s, c, a).value.procs[q].state == RUNNABLE
  {
    var t := Do(s, c, a).value;
    var j := StepChanges(s, c, a);
    StepEffect(s, c, a, q);
    if !(s.procs[q].state.SLEEPING? && s.procs[q].cont == SleepBack(ch, x)) {
      var d :| 0 <= d < |s.cpus| && s.cpus[d].mode == Thread(q, InSleep(ch, x, SMark));
      if d != c {
        assert t.cpus[d].mode == Thread(q, InSleep(ch, x, SMark));
      }
    }
  }

  /** Another CPU's wakeup keeps what it has done so far: nobody enters that sleep without x. */
  lemma OtherWakeOk(s: State, c: nat, a: Action, d: nat)
    requires CoreInv(s) && WakeInv(s) && Do(s, c, a).Some? && d < |s.cpus| && d != c
    requires d < |Do(s, c, a).value.cpus| && Do(s, c, a).value.cpus[d] == s.cpus[d] && |Do(s, c, a).value.procs| == |s.procs|
    requires forall x :: x in s.xlock && Runs(s.cpus[d].mode) == Option.Some(s.xlock[x]) ==>
               x in Do(s, c, a).value.xlock && Do(s, c, a).value.xlock[x] == s.xlock[x]
    ensures WakeOk(Do(s, c, a).value, d)
  {
    var t := Do(s, c, a).value;
    var m := s.cpus[d].mode;
    assert WakeOk(s, d) && WakeOk(s, c);
    if m.Thread? && m.pc.InWake? {
      forall q: nat | q < |s.procs| && q < Woke(m.pc.j, m.pc.t) ensures !Asleep(t, q, m.pc.ch, m.pc.x) {
        if Asleep(t, q, m.pc.ch, m.pc.x) {
          FallsAsleep(s, c, a, q, m.pc.ch, m.pc.x);
        }
      }
    }
  }

  /** Locks held by a process on another CPU do not change hands. */
  lemma OthersKeepX(s: State, c: nat, a: Action, d: nat, x: nat)
    requires CoreInv(s) && WakeInv(s) && Do(s, c, a).Some? && d < |s.cpus| && d != c
    requires x in s.xlock && Runs(s.cpus[d].mode) == Option.Some(s.xlock[x])
    ensures var t := Do(s, c, a).value; x in t.xlock && t.xlock[x] == s.xlock[x]
  {
    assert WakeOk(s, c);
    if Elsewhere(s.cpus[c].mode) {
      ElsewhereIsQuiet(s, c, a);
    } else {
      assert Runs(s.cpus[c].mode) != Runs(s.cpus[d].mode);
    }
  }

  lemma WakeLookOk(s: State, c: nat, p: nat, ch: nat, x: nat, j: nat)
    requires CoreInv(s) && WakeInv(s) && c < |s.cpus| && s.cpus[c].mode == Thread(p, InWake(ch, x, j, Look)) && Do(s, c, Go).Some?
    requires |Do(s, c, Go).value.procs| == |s.procs|
    ensures j < |s.procs| && !Asleep(Do(s, c, Go).value, j, ch, x)
  {
    var t := Do(s, c, Go).value;
    assert ModeOk(s.procs, s.cpus[c].mode) && ProcOk(|s.procs|, j, s.procs[j]);
    assert s.procs[j].lock == Option.Some(c);
    forall d | 0 <= d < |t.cpus| ensures t.cpus[d].mode != Thread(j, InSleep(ch, x, SMark)) {
      if d != c {
        assert s.procs[j].lock == Option.Some(d) <==> Owns(s.cpus[d].mode, j);
      }
    }
  }

  lemma OwnWakeScanOk(s: State, c: nat, p: nat, ch: nat, x: nat, j: nat, t: Stage, a: Action)
    requires CoreInv(s) && WakeInv(s) && c < |s.cpus| && s.cpus[c].mode == Thread(p, InWake(ch, x, j, t)) && Do(s, c, a).Some?
    requires |Do(s, c, a).value.procs| == |s.procs| && |Do(s, c, a).value.cpus| == |s.cpus|
    ensures WakeOk(Do(s, c, a).value, c)
  {
    var u := Do(s, c, a).value;
    assert WakeOk(s, c);
    if t.Look? {
      WakeLookOk(s, c, p, ch, x, j);
    }
    forall q: nat | q < |s.procs| && !Asleep(s, q, ch, x) ensures !Asleep(u, q, ch, x) {
      if Asleep(u, q, ch, x) {
        FallsAsleep(s, c, a, q, ch, x);
      }
    }
  }

  lemma OwnWakeOk(s: State, c: nat, a: Action)
    requires CoreInv(s) && WakeInv(s) && Do(s, c, a).Some?
    requires |Do(s, c, a).value.procs| == |s.procs| && |Do(s, c, a).value.cpus| == |s.cpus|
    ensures WakeOk(Do(s, c, a).value, c)
  {
    var m := s.cpus[c].mode;
    assert WakeOk(s, c);
    if Elsewhere(m) {
      ElsewhereIsQuiet(s, c, a);
    } else if m.pc.InWake? {
      OwnWakeScanOk(s, c, m.p, m.pc.ch, m.pc.x, m.pc.j, m.pc.t, a);
    }
  }

  lemma StepKeepsWake(s: State, c: nat, a: Action)
    requires CoreInv(s) && WakeInv(s) && Do(s, c, a).Some?
    ensures WakeInv(Do(s, c, a).value)
  {
    var t := Do(s, c, a).value;
    var j := StepChanges(s, c, a);
    forall d | 0 <= d < |t.cpus| ensures WakeOk(t, d) {
      if d == c {
        OwnWakeOk(s, c, a);
      } else {
        forall x | x in s.xlock && Runs(s.cpus[d].mode) == Option.Some(s.xlock[x])
          ensures x in t.xlock && t.xlock[x] == s.xlock[x]
        {
          OthersKeepX(s, c, a, d, x);
        }
        OtherWakeOk(s, c, a, d);
      }
    }
  }

  // ---------------------------------------------------------------------------------------
  // Runs
  // ---------------------------------------------------------------------------------------

  datatype Event = Event(c: nat, a: Action)

  /** Event i leads from state i to the next. */
  predicate StepAt(run: seq<State>, events: seq<Event>, i: nat)
    requires i < |events| < |run|
  {
    Shape(run[i]) && Do(run[i], events[i].c, events[i].a) == Option.Some(run[i + 1])
  }

  /** A sequence of steps, starting after userinit. */
  ghost predicate IsRun(run: seq<State>, events: seq<Event>) {
    && |run| == |events| + 1
    && Init(run[0])
    && forall i: nat :: i < |events| ==> StepAt(run, events, i)
  }

  ghost predicate Inv(s: State) {
    CoreInv(s) && FamilyInv(s) && WakeInv(s)
  }

  lemma InitHasInv(s: State)
    requires Init(s)
    ensures Inv(s)
  {
  }

  /** The invariant holds in every state of every run. */
  lemma {:induction false} RunKeepsInv(run: seq<State>, events: seq<Event>, i: nat)
    requires IsRun(run, events) && i < |run|
    ensures Inv(run[i])
  {
    if i == 0 {
      InitHasInv(run[0]);
    } else {
      var j := i - 1;
      RunKeepsInv(run, events, j);
      assert StepAt(run, events, j);
      StepKeepsCore(run[j], events[j].c, events[j].a);
      StepKeepsFamily(run[j], events[j].c, events[j].a);
      StepKeepsWake(run[j], events[j].c, events[j].a);
    }
  }

  /** In every state of every run two CPUs are never in the same process's thread. */
  lemma NeverOnTwoCpus(run: seq<State>, events: seq<Event>, i: nat, c: nat, d: nat)
    requires IsRun(run, events) && i < |run| && c < |run[i].cpus| && d < |run[i].cpus| && c != d
    requires run[i].cpus[c].mode.Thread? && run[i].cpus[d].mode.Thread?
    ensures run[i].cpus[c].mode.p != run[i].cpus[d].mode.p
  {
    RunKeepsInv(run, events, i);
    assert Runs(run[i].cpus[c].mode) != Runs(run[i].cpus[d].mode);
  }

  /** In every state of every run a loaded kernel page table has not been freed. */
  lemma LoadedTableIsAlive(run: seq<State>, events: seq<Event>, i: nat, c: nat)
    requires IsRun(run, events) && i < |run| && c < |run[i].cpus| && run[i].cpus[c].satp.Some?
    ensures run[i].cpus[c].satp.value < |run[i].procs| && run[i].procs[run[i].cpus[c].satp.value].kpt
  {
    RunKeepsInv(run, events, i);
    var s := run[i];
    assert SatpOk(s.cpus[c]) && ModeOk(s.procs, s.cpus[c].mode);
    assert ProcOk(|s.procs|, s.cpus[c].satp.value, s.procs[s.cpus[c].satp.value]);
  }

  /** In every state of every run a zombie has no children, and a process other than init
      asleep in wait has no zombie child. */
  lemma ZombiesAreNoticed(run: seq<State>, events: seq<Event>, i: nat, p: nat, k: nat)
    requires IsRun(run, events) && i < |run| && p < |run[i].procs| && k < |run[i].procs|
    ensures run[i].procs[p].state.ZOMBIE? ==> run[i].procs[k].parent != Option.Some(p)
    ensures (p != INIT && run[i].procs[p].state.SLEEPING? && run[i].procs[p].chan == Option.Some(OfProc(p))
             && run[i].procs[k].parent == Option.Some(p)) ==> !run[i].procs[k].state.ZOMBIE?
  {
    RunKeepsInv(run, events, i);
    assert ProcOk(|run[i].procs|, p, run[i].procs[p]);
  }

  /** When a wakeup(ch) under x has gone through the table, nobody who had given up x inside
      sleep(ch, x) is still asleep. */
  lemma WakeupReachesAll(run: seq<State>, events: seq<Event>, i: nat, c: nat, q: nat)
    requires IsRun(run, events) && i < |run| && c < |run[i].cpus| && q < |run[i].procs|
    requires var m := run[i].cpus[c].mode; m.Thread? && m.pc.InWake? && m.pc.j == |run[i].procs|
    ensures !Asleep(run[i], q, run[i].cpus[c].mode.pc.ch, run[i].cpus[c].mode.pc.x)
  {
    RunKeepsInv(run, events, i);
    assert WakeOk(run[i], c);
  }

  lemma SleeperStep(run: seq<State>, events: seq<Event>, i: nat, q: nat, ch: nat, x: nat)
    requires IsRun(run, events) && i < |events| && q < |run[i].procs| && Asleep(run[i], q, ch, x)
    ensures q < |run[i + 1].procs| && (Asleep(run[i + 1], q, ch, x) || run[i + 1].procs[q].state == RUNNABLE)
  {
    RunKeepsInv(run, events, i);
    assert StepAt(run, events, i);
    LeavesWoken(run[i], events[i].c, events[i].a, q, ch, x);
  }

  /** Whoever was asleep on (ch, x) and no longer is was made runnable in between; so a sleeper
      that gave up x before the waker of WakeupReachesAll took it is made runnable by the time
      that wakeup ends. */
  lemma {:induction false} NoWakeupIsLost(run: seq<State>, events: seq<Event>, i: nat, k: nat, q: nat, ch: nat, x: nat) returns (w: nat)
    requires IsRun(run, events) && i < k < |run| && q < |run[i].procs| && q < |run[k].procs|
    requires Asleep(run[i], q, ch, x) && !Asleep(run[k], q, ch, x)
    ensures i < w <= k && q < |run[w].procs| && run[w].procs[q].state == RUNNABLE
    decreases k - i
  {
    SleeperStep(run, events, i, q, ch, x);
    if Asleep(run[i + 1], q, ch, x) {
      w := NoWakeupIsLost(run, events, i + 1, k, q, ch, x);
    } else {
      w := i + 1;
    }
  }

  /** A process that gave up x inside sleep(ch, x) is made runnable no later than the end of any
      wakeup(ch) under x that comes after. */
  lemma SleeperIsWoken(run: seq<State>, events: seq<Event>, i: nat, k: nat, c: nat, q: nat) returns (w: nat)
    requires IsRun(run, events) && i < k < |run| && c < |run[k].cpus| && q < |run[i].procs| && q < |run[k].procs|
    requires var m := run[k].cpus[c].mode; m.Thread? && m.pc.InWake? && m.pc.j == |run[k].procs| && Asleep(run[i], q, m.pc.ch, m.pc.x)
    ensures i < w <= k && q < |run[w].procs| && run[w].procs[q].state == RUNNABLE
  {
    var pc := run[k].cpus[c].mode.pc;
    WakeupReachesAll(run, events, k, c, q);
    w := NoWakeupIsLost(run, events, i, k, q, pc.ch, pc.x);
  }

  predicate EachOthersParent(s: State, p: nat, q: nat) {
    p < |s.procs| && q < |s.procs| && s.procs[p].parent == Option.Some(q) && s.procs[q].parent == Option.Some(p)
  }

  /** A slot that fork fills has no children and is not the one that forks. */
  lemma NewKidHasNone(s: State, c: nat, a: Action, p: nat, q: nat)
    requires CoreInv(s) && FamilyInv(s) && Do(s, c, a).Some? && p < |s.procs| && q < |s.procs| && q != INIT && |Do(s, c, a).value.procs| == |s.procs|
    requires Do(s, c, a).value.procs[p].parent == Option.Some(q) && s.procs[p].parent != Option.Some(q)
    ensures s.cpus[c].mode == Thread(q, InFork(p, FParent)) && p != q && s.procs[q].parent != Option.Some(p)
  {
    NewKid(s, c, a, p, q);
    assert ModeOk(s.procs, s.cpus[c].mode);
    assert NoKids(s.procs, p, |s.procs|);
  }

  lemma StepKeepsApart(s: State, c: nat, a: Action, p: nat, q: nat)
    requires CoreInv(s) && FamilyInv(s) && Do(s, c, a).Some? && CoreInv(Do(s, c, a).value) && p < |s.procs| && q < |s.procs|
    requires !EachOthersParent(s, p, q)
    ensures !EachOthersParent(Do(s, c, a).value, p, q)
  {
    var t := Do(s, c, a).value;
    if EachOthersParent(t, p, q) {
      assert ProcOk(|t.procs|, p, t.procs[p]) && ProcOk(|t.procs|, q, t.procs[q]);
      StepEffect(s, c, a, p);
      if s.procs[p].parent != Option.Some(q) {
        NewKidHasNone(s, c, a, p, q);
        NewKidHasNone(s, c, a, q, p);
      } else {
        NewKidHasNone(s, c, a, q, p);
      }
    }
  }

  /** In every state of every run no process is its own parent or its parent's parent. */
  lemma {:induction false} NotEachOthersParent(run: seq<State>, events: seq<Event>, i: nat, p: nat, q: nat)
    requires IsRun(run, events) && i < |run|
    ensures !EachOthersParent(run[i], p, q)
  {
    RunKeepsInv(run, events, i);
    if i > 0 {
      var j := i - 1;
      NotEachOthersParent(run, events, j, p, q);
      RunKeepsInv(run, events, j);
      assert StepAt(run, events, j);
      var k := StepChanges(run[j], events[j].c, events[j].a);
      if p < |run[j].procs| && q < |run[j].procs| {
        StepKeepsApart(run[j], events[j].c, events[j].a, p, q);
      }
    }
  }
}

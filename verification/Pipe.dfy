/**
 The pipe (pipe.c): a 512-byte ring with 32-bit counters that wrap, and any number of readers
 and writers that take its lock, sleep and wake each other.

 `put` and `taken` are histories: all bytes ever stored in the ring and removed from it.
 */
module Pipe {
  import opened Common

  const PIPESIZE: nat := 512
  const U32: nat := 0x1_0000_0000

  // ---------------------------------------------------------------------------------------
  // The ring
  // ---------------------------------------------------------------------------------------

  datatype Ring = Ring(data: seq<bv8>, nread: nat, nwrite: nat)

  function PutByte(r: Ring, b: bv8): Ring
    requires |r.data| == PIPESIZE
  {
    r.(data := r.data[r.nwrite % PIPESIZE := b], nwrite := (r.nwrite + 1) % U32)
  }

  function TakeByte(r: Ring): (Ring, bv8)
    requires |r.data| == PIPESIZE
  {
    (r.(nread := (r.nread + 1) % U32), r.data[r.nread % PIPESIZE])
  }

  predicate Full(r: Ring) {
    r.nwrite == (r.nread + PIPESIZE) % U32
  }

  predicate Empty(r: Ring) {
    r.nread == r.nwrite
  }

  /** A ring with its histories. */
  datatype Buf = Buf(ring: Ring, put: seq<bv8>, taken: seq<bv8>)

  function BufPut(b: Buf, c: bv8): Buf
    requires |b.ring.data| == PIPESIZE
  {
    Buf(PutByte(b.ring, c), b.put + [c], b.taken)
  }

  function BufTake(b: Buf): Buf
    requires |b.ring.data| == PIPESIZE
  {
    Buf(TakeByte(b.ring).0, b.put, b.taken + [TakeByte(b.ring).1])
  }

  /** The ring holds what was put and not yet taken; taken is a prefix of put. */
  ghost predicate RingOk(r: Ring, put: seq<bv8>, taken: seq<bv8>) {
    && |r.data| == PIPESIZE && r.nread == |taken| % U32 && r.nwrite == |put| % U32
    && |taken| <= |put| <= |taken| + PIPESIZE && taken == put[..|taken|]
    && forall i: nat :: |taken| <= i < |put| ==> r.data[i % PIPESIZE] == put[i]
  }

  ghost predicate BufOk(b: Buf) {
    RingOk(b.ring, b.put, b.taken)
  }

  /** The counters, wrapped or not, tell a full and an empty ring. */
  lemma FullAndEmpty(r: Ring, put: seq<bv8>, taken: seq<bv8>)
    requires RingOk(r, put, taken)
    ensures Full(r) <==> |put| == |taken| + PIPESIZE
    ensures Empty(r) <==> |put| == |taken|
  {
    var d := |put| - |taken|;
    assert |put| % U32 == (|taken| % U32 + d) % U32;
  }

  lemma WrapKeepsSlot(n: nat)
    ensures n % U32 % PIPESIZE == n % PIPESIZE && (n % U32 + 1) % U32 == (n + 1) % U32
  {
  }

  /** Slots of bytes in flight are different. */
  lemma SlotsDiffer(i: nat, j: nat)
    requires i < j < i + PIPESIZE
    ensures i % PIPESIZE != j % PIPESIZE
  {
  }

  lemma PutKeepsRing(r: Ring, put: seq<bv8>, taken: seq<bv8>, b: bv8)
    requires RingOk(r, put, taken) && !Full(r)
    ensures RingOk(PutByte(r, b), put + [b], taken)
  {
    FullAndEmpty(r, put, taken);
    WrapKeepsSlot(|put|);
    var r' := PutByte(r, b);
    forall i: nat | |taken| <= i < |put| + 1 ensures r'.data[i % PIPESIZE] == (put + [b])[i] {
      if i < |put| {
        SlotsDiffer(i, |put|);
      }
    }
  }

  lemma TakeKeepsRing(r: Ring, put: seq<bv8>, taken: seq<bv8>)
    requires RingOk(r, put, taken) && !Empty(r)
    ensures RingOk(TakeByte(r).0, put, taken + [TakeByte(r).1])
  {
    FullAndEmpty(r, put, taken);
    WrapKeepsSlot(|taken|);
    assert r.data[|taken| % PIPESIZE] == put[|taken|];
    assert put[..|taken| + 1] == put[..|taken|] + [put[|taken|]];
  }

  /** The ring in place, and what the two copy loops do to it while they need not block. */
  class Fifo {
    const data: array<bv8>
    var nread: nat
    var nwrite: nat
    ghost var put: seq<bv8>
    ghost var taken: seq<bv8>

    ghost function Now(): Buf
      reads this, data
    {
      Buf(Ring(data[..], nread, nwrite), put, taken)
    }

    ghost predicate Valid()
      reads this, data
    {
      data.Length == PIPESIZE && BufOk(Now())
    }

    /** pipealloc's part (pipe.c:35-36). */
    constructor (page: array<bv8>)
      requires page.Length == PIPESIZE
      ensures Valid() && data == page && put == [] && taken == []
    {
      data, nread, nwrite, put, taken := page, 0, 0, [], [];
    }

    /** pipe.c:99 */
    method Put(ch: bv8)
      requires Valid() && !Full(Now().ring)
      modifies this, data
      ensures Valid() && put == old(put) + [ch] && taken == old(taken)
    {
      PutKeepsRing(Now().ring, put, taken, ch);
      ghost var r := PutByte(Now().ring, ch);
      data[nwrite % PIPESIZE] := ch;
      nwrite := (nwrite + 1) % U32;
      put := put + [ch];
      assert Now().ring == r;
    }

    /** pipe.c:124 */
    method Take() returns (ch: bv8)
      requires Valid() && !Empty(Now().ring)
      modifies this
      ensures Valid() && put == old(put) && taken == old(taken) + [ch]
    {
      TakeKeepsRing(Now().ring, put, taken);
      ch := data[nread % PIPESIZE];
      nread := (nread + 1) % U32;
      taken := taken + [ch];
    }

    /** The loop of pipewrite from byte i on, up to the point where it would block. */
    method WriteSome(src: seq<bv8>, start: nat) returns (i: nat)
      requires Valid() && start <= |src|
      modifies this, data
      ensures Valid() && start <= i <= |src| && put == old(put) + src[start..i] && taken == old(taken)
      ensures i == |src| || |put| == |taken| + PIPESIZE
    {
      i := start;
      while i < |src| && nwrite != (nread + PIPESIZE) % U32
        invariant Valid() && start <= i <= |src| && put == old(put) + src[start..i] && taken == old(taken)
      {
        Put(src[i]);
        i := i + 1;
      }
      FullAndEmpty(Now().ring, put, taken);
    }

    /** The copy loop of piperead: as many bytes as there are, up to n. */
    method ReadSome(n: nat) returns (dst: seq<bv8>)
      requires Valid()
      modifies this
      ensures Valid() && put == old(put) && taken == old(taken) + dst && |dst| <= n
      ensures |dst| == n || taken == put
    {
      dst := [];
      while |dst| < n && nread != nwrite
        invariant Valid() && put == old(put) && taken == old(taken) + dst && |dst| <= n
        decreases n - |dst|
      {
        var ch := Take();
        dst := dst + [ch];
      }
      FullAndEmpty(Now().ring, put, taken);
    }
  }

  // ---------------------------------------------------------------------------------------
  // Readers and writers
  // ---------------------------------------------------------------------------------------

  datatype WPc = WWant | WLoop | WWake | WSleep | WAsleep | WWoken | WDone | WRelease | WGiveUp
  datatype RPc = RWant | RTest | RSleep | RAsleep | RWoken | RLoop | RDone | RRelease | RGiveUp
  datatype CPc = CWant | CSet | CWake | CRelease

  /** Where a process is in pipewrite, piperead or pipeclose; i counts the bytes done. */
  datatype Pc =
    | Idle
    | Writing(bytes: seq<bv8>, i: nat, w: WPc)
    | Reading(n: nat, i: nat, r: RPc)
    | Closing(writable: bool, c: CPc)

  /** `gaveUp`: some writer took the exit at pipe.c:86-88. */
  datatype State = State(buf: Buf, readopen: bool, writeopen: bool, lock: Option<nat>, pcs: seq<Pc>, killed: set<nat>, gaveUp: bool)

  /** `Fault` is a step whose user copy fails. */
  datatype Action = Go | Fault | CallWrite(bytes: seq<bv8>) | CallRead(n: nat) | CallClose(writable: bool) | Kill(q: nat)

  predicate WriterAsleep(pc: Pc) {
    pc.Writing? && pc.w == WAsleep
  }

  predicate ReaderAsleep(pc: Pc) {
    pc.Reading? && pc.r == RAsleep
  }

  function WokenWriter(pc: Pc): Pc {
    if WriterAsleep(pc) then pc.(w := WWoken) else pc
  }

  function WokenReader(pc: Pc): Pc {
    if ReaderAsleep(pc) then pc.(r := RWoken) else pc
  }

  /** wakeup(&pi->nwrite) and wakeup(&pi->nread). */
  function WakeWriters(pcs: seq<Pc>): (r: seq<Pc>)
    ensures |r| == |pcs| && forall p: nat :: p < |pcs| ==> r[p] == WokenWriter(pcs[p])
  {
    if |pcs| == 0 then [] else WakeWriters(pcs[..|pcs| - 1]) + [WokenWriter(pcs[|pcs| - 1])]
  }

  function WakeReaders(pcs: seq<Pc>): (r: seq<Pc>)
    ensures |r| == |pcs| && forall p: nat :: p < |pcs| ==> r[p] == WokenReader(pcs[p])
  {
    if |pcs| == 0 then [] else WakeReaders(pcs[..|pcs| - 1]) + [WokenReader(pcs[|pcs| - 1])]
  }

  function At(s: State, p: nat, pc: Pc): State
    requires p < |s.pcs|
  {
    s.(pcs := s.pcs[p := pc])
  }

  /** acquire, when the lock is free. */
  function Acquire(s: State, p: nat, pc: Pc): Option<State>
    requires p < |s.pcs|
  {
    if s.lock.None? then Some(At(s, p, pc).(lock := Some(p))) else None
  }

  function Release(s: State, p: nat, pc: Pc): State
    requires p < |s.pcs|
  {
    At(s, p, pc).(lock := None)
  }

  /** One step of pipewrite (pipe.c:77-104). */
  function DoWrite(s: State, p: nat, bytes: seq<bv8>, i: nat, w: WPc, fault: bool): Option<State>
    requires p < |s.pcs| && |s.buf.ring.data| == PIPESIZE
  {
    match w
    case WWant => Acquire(s, p, Writing(bytes, i, WLoop))
    case WLoop =>
      if i >= |bytes| then Some(At(s, p, Writing(bytes, i, WDone)))
      else if Full(s.buf.ring) then
        if !s.readopen || p in s.killed then Some(At(s, p, Writing(bytes, i, WGiveUp)).(gaveUp := true))
        else Some(At(s, p, Writing(bytes, i, WWake)))
      else if fault then Some(At(s, p, Writing(bytes, i, WDone)))
      else Some(At(s, p, Writing(bytes, i + 1, WLoop)).(buf := BufPut(s.buf, bytes[i])))
    case WWake => Some(At(s.(pcs := WakeReaders(s.pcs)), p, Writing(bytes, i, WSleep)))
    case WSleep => Some(Release(s, p, Writing(bytes, i, WAsleep)))
    case WAsleep => None
    case WWoken => Acquire(s, p, Writing(bytes, i, WLoop))
    case WDone => Some(At(s.(pcs := WakeReaders(s.pcs)), p, Writing(bytes, i, WRelease)))
    case WRelease => Some(Release(s, p, Idle))
    case WGiveUp => Some(Release(s, p, Idle))
  }

  /** One step of piperead (pipe.c:107-131); a byte whose copyout fails is gone. */
  function DoRead(s: State, p: nat, n: nat, i: nat, r: RPc, fault: bool): Option<State>
    requires p < |s.pcs| && |s.buf.ring.data| == PIPESIZE
  {
    match r
    case RWant => Acquire(s, p, Reading(n, i, RTest))
    case RTest =>
      if Empty(s.buf.ring) && s.writeopen then
        if p in s.killed then Some(At(s, p, Reading(n, i, RGiveUp))) else Some(At(s, p, Reading(n, i, RSleep)))
      else Some(At(s, p, Reading(n, i, RLoop)))
    case RSleep => Some(Release(s, p, Reading(n, i, RAsleep)))
    case RAsleep => None
    case RWoken => Acquire(s, p, Reading(n, i, RTest))
    case RLoop =>
      if i >= n || Empty(s.buf.ring) then Some(At(s, p, Reading(n, i, RDone)))
      else
        Some(At(s.(buf := BufTake(s.buf)), p, if fault then Reading(n, i, RDone) else Reading(n, i + 1, RLoop)))
    case RDone => Some(At(s.(pcs := WakeWriters(s.pcs)), p, Reading(n, i, RRelease)))
    case RRelease => Some(Release(s, p, Idle))
    case RGiveUp => Some(Release(s, p, Idle))
  }

  /** One step of pipeclose (pipe.c:59-74); the pipe's page is not modelled. */
  function DoClose(s: State, p: nat, writable: bool, c: CPc): Option<State>
    requires p < |s.pcs|
  {
    match c
    case CWant => Acquire(s, p, Closing(writable, CSet))
    case CSet =>
      var s' := if writable then s.(writeopen := false) else s.(readopen := false);
      Some(At(s', p, Closing(writable, CWake)))
    case CWake => Some(At(s.(pcs := if writable then WakeReaders(s.pcs) else WakeWriters(s.pcs)), p, Closing(writable, CRelease)))
    case CRelease => Some(Release(s, p, Idle))
  }

  /** Process p does a; None when it cannot. */
  function Do(s: State, p: nat, a: Action): Option<State>
    requires p < |s.pcs| && |s.buf.ring.data| == PIPESIZE
  {
    match a
    case CallWrite(bytes) => if s.pcs[p].Idle? then Some(At(s, p, Writing(bytes, 0, WWant))) else None
    case CallRead(n) => if s.pcs[p].Idle? then Some(At(s, p, Reading(n, 0, RWant))) else None
    case CallClose(writable) => if s.pcs[p].Idle? then Some(At(s, p, Closing(writable, CWant))) else None
    case Kill(q) =>
      if q < |s.pcs| then Some(At(s, q, WokenWriter(WokenReader(s.pcs[q]))).(killed := s.killed + {q})) else None
    case _ =>
      match s.pcs[p]
      case Idle => None
      case Writing(bytes, i, w) => DoWrite(s, p, bytes, i, w, a.Fault?)
      case Reading(n, i, r) => DoRead(s, p, n, i, r, a.Fault?)
      case Closing(writable, c) => DoClose(s, p, writable, c)
  }

  // ---------------------------------------------------------------------------------------
  // Invariant
  // ---------------------------------------------------------------------------------------

  predicate Holding(pc: Pc) {
    match pc
    case Idle => false
    case Writing(_, _, w) => w != WWant && w != WAsleep && w != WWoken
    case Reading(_, _, r) => r != RWant && r != RAsleep && r != RWoken
    case Closing(_, c) => c != CWant
  }

  /** The process will wake sleeping writers, or readers, before it releases the lock. */
  predicate OwesWriters(pc: Pc) {
    (pc.Reading? && (pc.r == RLoop || pc.r == RDone)) || (pc.Closing? && !pc.writable && pc.c == CWake)
  }

  predicate OwesReaders(pc: Pc) {
    (pc.Writing? && (pc.w == WLoop || pc.w == WWake || pc.w == WDone)) || (pc.Closing? && pc.writable && pc.c == CWake)
  }

  predicate Owed(s: State, writers: bool) {
    s.lock.Some? && s.lock.value < |s.pcs| && if writers then OwesWriters(s.pcs[s.lock.value]) else OwesReaders(s.pcs[s.lock.value])
  }

  ghost predicate LockOk(s: State) {
    && (forall p: nat :: p < |s.pcs| ==> (Holding(s.pcs[p]) <==> s.lock == Some(p)))
    && (s.lock.Some? ==> s.lock.value < |s.pcs|)
  }

  ghost predicate WritersOk(s: State) {
    forall p: nat :: p < |s.pcs| && WriterAsleep(s.pcs[p]) ==> Full(s.buf.ring) && s.readopen
  }

  ghost predicate ReadersOk(s: State) {
    forall p: nat :: p < |s.pcs| && ReaderAsleep(s.pcs[p]) ==> Empty(s.buf.ring) && s.writeopen
  }

  /** What a process about to sleep or to give up has just seen. */
  predicate AboutToSleep(s: State, pc: Pc) {
    && (pc.Writing? && (pc.w == WWake || pc.w == WSleep) ==> Full(s.buf.ring) && s.readopen)
    && (pc.Writing? && pc.w == WGiveUp ==> Full(s.buf.ring))
    && (pc.Reading? && pc.r == RSleep ==> Empty(s.buf.ring) && s.writeopen)
  }

  ghost predicate SleepOk(s: State) {
    && (Owed(s, true) || WritersOk(s))
    && (Owed(s, false) || ReadersOk(s) || s.gaveUp)
    && (forall p: nat :: p < |s.pcs| ==> AboutToSleep(s, s.pcs[p]))
  }

  ghost predicate Inv(s: State) {
    BufOk(s.buf) && LockOk(s) && SleepOk(s) && GaveUpOk(s)
  }

  // ---------------------------------------------------------------------------------------
  // Every step keeps it
  // ---------------------------------------------------------------------------------------

  /** How a step changes the histories. */
  ghost predicate Grows(b: Buf, b': Buf) {
    && |b.put| <= |b'.put| && b'.put[..|b.put|] == b.put
    && |b.taken| <= |b'.taken| && b'.taken[..|b.taken|] == b.taken
  }

  /** A step changes the buffer by one byte put or taken, if at all. */
  ghost predicate OneByte(b: Buf, b': Buf)
    requires |b.ring.data| == PIPESIZE
  {
    b' == b || (exists c :: !Full(b.ring) && b' == BufPut(b, c)) || (!Empty(b.ring) && b' == BufTake(b))
  }

  lemma WriteBuf(s: State, p: nat, bytes: seq<bv8>, i: nat, w: WPc, fault: bool, s': State)
    requires p < |s.pcs| && |s.buf.ring.data| == PIPESIZE && DoWrite(s, p, bytes, i, w, fault) == Some(s')
    ensures OneByte(s.buf, s'.buf)
  {
    if w != WLoop && w != WAsleep {
      assert s'.buf == s.buf;
    }
  }

  lemma ReadBuf(s: State, p: nat, n: nat, i: nat, r: RPc, fault: bool, s': State)
    requires p < |s.pcs| && |s.buf.ring.data| == PIPESIZE && DoRead(s, p, n, i, r, fault) == Some(s')
    ensures OneByte(s.buf, s'.buf)
  {
    if r != RLoop && r != RAsleep {
      assert s'.buf == s.buf;
    }
  }

  lemma StepBuf(s: State, p: nat, a: Action, s': State)
    requires p < |s.pcs| && |s.buf.ring.data| == PIPESIZE && Do(s, p, a) == Some(s')
    ensures OneByte(s.buf, s'.buf)
  {
    if (a.Go? || a.Fault?) && s.pcs[p].Writing? {
      WriteBuf(s, p, s.pcs[p].bytes, s.pcs[p].i, s.pcs[p].w, a.Fault?, s');
    } else if (a.Go? || a.Fault?) && s.pcs[p].Reading? {
      ReadBuf(s, p, s.pcs[p].n, s.pcs[p].i, s.pcs[p].r, a.Fault?, s');
    }
  }

  lemma StepKeepsBuf(s: State, p: nat, a: Action, s': State)
    requires p < |s.pcs| && BufOk(s.buf) && Do(s, p, a) == Some(s')
    ensures BufOk(s'.buf) && Grows(s.buf, s'.buf)
  {
    StepBuf(s, p, a, s');
    if s'.buf != s.buf {
      if !Empty(s.buf.ring) && s'.buf == BufTake(s.buf) {
        TakeKeepsRing(s.buf.ring, s.buf.put, s.buf.taken);
      } else {
        var c :| !Full(s.buf.ring) && s'.buf == BufPut(s.buf, c);
        PutKeepsRing(s.buf.ring, s.buf.put, s.buf.taken, c);
      }
    }
  }

  /** Everyone but p is as before, or has been woken. */
  ghost predicate OthersWoken(s: State, s': State, p: nat) {
    && |s'.pcs| == |s.pcs|
    && forall q: nat :: q < |s.pcs| && q != p ==>
         s'.pcs[q] == s.pcs[q] || (WriterAsleep(s.pcs[q]) && s'.pcs[q] == WokenWriter(s.pcs[q])) || (ReaderAsleep(s.pcs[q]) && s'.pcs[q] == WokenReader(s.pcs[q]))
  }

  /** The lock does not move, or p takes it when it is free, or p gives it up. */
  predicate LockMove(s: State, s': State, p: nat)
    requires p < |s.pcs| && p < |s'.pcs|
  {
    || (s'.lock == s.lock && Holding(s'.pcs[p]) == Holding(s.pcs[p]))
    || (s.lock.None? && s'.lock == Some(p) && Holding(s'.pcs[p]))
    || (Holding(s.pcs[p]) && s'.lock.None? && !Holding(s'.pcs[p]))
  }

  lemma LockKept(s: State, s': State, p: nat)
    requires p < |s.pcs| && LockOk(s) && OthersWoken(s, s', p) && LockMove(s, s', p)
    ensures LockOk(s')
  {
  }

  lemma WriteLoopMoves(s: State, p: nat, bytes: seq<bv8>, i: nat, fault: bool, s': State)
    requires p < |s.pcs| && |s.buf.ring.data| == PIPESIZE && s.pcs[p] == Writing(bytes, i, WLoop) && DoWrite(s, p, bytes, i, WLoop, fault) == Some(s')
    ensures s'.pcs == s.pcs[p := s'.pcs[p]] && s'.lock == s.lock && s'.readopen == s.readopen && s'.writeopen == s.writeopen
    ensures s'.pcs[p].Writing? && s'.pcs[p].w in {WDone, WGiveUp, WWake, WLoop}
    ensures s'.pcs[p].w == WGiveUp ==> s'.gaveUp && Full(s.buf.ring)
    ensures s'.pcs[p].w == WWake ==> s.readopen && Full(s.buf.ring)
    ensures s'.pcs[p].w == WLoop ==> !Full(s.buf.ring) && s'.gaveUp == s.gaveUp
    ensures s'.pcs[p].w != WLoop ==> s'.buf == s.buf
    ensures s.gaveUp ==> s'.gaveUp
  {
  }

  lemma WriteMoves(s: State, p: nat, fault: bool, s': State)
    requires p < |s.pcs| && |s.buf.ring.data| == PIPESIZE && s.pcs[p].Writing?
    requires DoWrite(s, p, s.pcs[p].bytes, s.pcs[p].i, s.pcs[p].w, fault) == Some(s')
    ensures OthersWoken(s, s', p) && LockMove(s, s', p)
    ensures (s'.pcs[p].Writing? && s'.pcs[p].w == WGiveUp ==> s'.gaveUp) && (s.gaveUp ==> s'.gaveUp)
  {
    match s.pcs[p].w
    case WWant =>
    case WLoop => WriteLoopMoves(s, p, s.pcs[p].bytes, s.pcs[p].i, fault, s');
    case WWake =>
    case WSleep =>
    case WAsleep =>
    case WWoken =>
    case WDone =>
    case WRelease =>
    case WGiveUp =>
  }

  lemma ReadLoopMoves(s: State, p: nat, n: nat, i: nat, r: RPc, fault: bool, s': State)
    requires p < |s.pcs| && |s.buf.ring.data| == PIPESIZE && s.pcs[p] == Reading(n, i, r) && (r == RLoop || r == RTest)
    requires DoRead(s, p, n, i, r, fault) == Some(s')
    ensures s'.pcs == s.pcs[p := s'.pcs[p]] && s'.lock == s.lock && s'.readopen == s.readopen && s'.writeopen == s.writeopen && s'.gaveUp == s.gaveUp
    ensures s'.pcs[p].Reading? && s'.pcs[p].r in {RGiveUp, RSleep, RLoop, RDone}
    ensures s'.pcs[p].r == RSleep ==> s.writeopen && Empty(s.buf.ring)
    ensures s'.buf != s.buf ==> r == RLoop && !Empty(s.buf.ring)
    ensures s'.pcs[p].r in {RSleep, RGiveUp} ==> r == RTest && s'.buf == s.buf
  {
  }

  lemma ReadMoves(s: State, p: nat, fault: bool, s': State)
    requires p < |s.pcs| && |s.buf.ring.data| == PIPESIZE && s.pcs[p].Reading?
    requires DoRead(s, p, s.pcs[p].n, s.pcs[p].i, s.pcs[p].r, fault) == Some(s')
    ensures OthersWoken(s, s', p) && LockMove(s, s', p)
    ensures s'.gaveUp == s.gaveUp && !s'.pcs[p].Writing?
  {
    match s.pcs[p].r
    case RWant =>
    case RTest => ReadLoopMoves(s, p, s.pcs[p].n, s.pcs[p].i, RTest, fault, s');
    case RSleep =>
    case RAsleep =>
    case RWoken =>
    case RLoop => ReadLoopMoves(s, p, s.pcs[p].n, s.pcs[p].i, RLoop, fault, s');
    case RDone =>
    case RRelease =>
    case RGiveUp =>
  }

  lemma CloseMoves(s: State, p: nat, s': State)
    requires p < |s.pcs| && s.pcs[p].Closing? && DoClose(s, p, s.pcs[p].writable, s.pcs[p].c) == Some(s')
    ensures OthersWoken(s, s', p) && LockMove(s, s', p)
    ensures s'.gaveUp == s.gaveUp && !s'.pcs[p].Writing?
  {
    match s.pcs[p].c
    case CWant =>
    case CSet =>
    case CWake =>
    case CRelease =>
  }

  lemma StepKeepsLock(s: State, p: nat, a: Action, s': State)
    requires p < |s.pcs| && |s.buf.ring.data| == PIPESIZE && LockOk(s) && Do(s, p, a) == Some(s')
    ensures LockOk(s')
  {
    if a.Go? || a.Fault? {
      if s.pcs[p].Writing? {
        WriteMoves(s, p, a.Fault?, s');
        LockKept(s, s', p);
      } else if s.pcs[p].Reading? {
        ReadMoves(s, p, a.Fault?, s');
        LockKept(s, s', p);
      } else if s.pcs[p].Closing? {
        CloseMoves(s, p, s');
        LockKept(s, s', p);
      }
    }
  }

  // Sleepers.

  lemma WriteLoopKeepsSleep(s: State, p: nat, bytes: seq<bv8>, i: nat, s': State)
    requires p < |s.pcs| && LockOk(s) && SleepOk(s) && s.pcs[p] == Writing(bytes, i, WLoop)
    requires |s'.pcs| == |s.pcs| && s'.pcs == s.pcs[p := s'.pcs[p]]
    requires s'.lock == s.lock && s'.readopen == s.readopen && s'.writeopen == s.writeopen
    requires s'.pcs[p].Writing? && s'.pcs[p].w in {WDone, WGiveUp, WWake, WLoop}
    requires s'.pcs[p].w == WGiveUp ==> s'.gaveUp && Full(s.buf.ring)
    requires s'.pcs[p].w == WWake ==> s.readopen && Full(s.buf.ring)
    requires s'.pcs[p].w == WLoop ==> !Full(s.buf.ring)
    requires s'.pcs[p].w != WLoop ==> s'.buf == s.buf
    ensures SleepOk(s')
  {
    assert Holding(s.pcs[p]);
  }

  predicate Awake(pc: Pc) {
    !WriterAsleep(pc) && !ReaderAsleep(pc)
  }

  /** Taking a free lock. */
  lemma AcquireKeepsSleep(s: State, p: nat, pc: Pc)
    requires p < |s.pcs| && LockOk(s) && SleepOk(s) && s.lock.None? && Awake(pc) && AboutToSleep(s, pc)
    ensures SleepOk(At(s, p, pc).(lock := Some(p)))
  {
    var s' := At(s, p, pc).(lock := Some(p));
    forall q: nat | q < |s'.pcs| ensures AboutToSleep(s', s'.pcs[q]) {
      assert q != p ==> AboutToSleep(s, s.pcs[q]);
    }
  }

  /** Giving up the lock when no wakeup is owed. */
  lemma ReleaseKeepsSleep(s: State, p: nat, pc: Pc)
    requires p < |s.pcs| && LockOk(s) && SleepOk(s) && Holding(s.pcs[p]) && !OwesWriters(s.pcs[p])
    requires OwesReaders(s.pcs[p]) ==> s.gaveUp
    requires WriterAsleep(pc) ==> Full(s.buf.ring) && s.readopen
    requires ReaderAsleep(pc) ==> Empty(s.buf.ring) && s.writeopen
    requires AboutToSleep(s, pc)
    ensures SleepOk(Release(s, p, pc))
  {
    var s' := Release(s, p, pc);
    forall q: nat | q < |s'.pcs| ensures AboutToSleep(s', s'.pcs[q]) {
      assert q != p ==> AboutToSleep(s, s.pcs[q]);
    }
  }

  /** Waking readers, or writers. */
  lemma WakeKeepsSleep(s: State, p: nat, pc: Pc, writers: bool)
    requires p < |s.pcs| && LockOk(s) && SleepOk(s) && Holding(s.pcs[p]) && Holding(pc) && AboutToSleep(s, pc)
    requires if writers then !OwesReaders(s.pcs[p]) else !OwesWriters(s.pcs[p])
    ensures SleepOk(At(s.(pcs := if writers then WakeWriters(s.pcs) else WakeReaders(s.pcs)), p, pc))
  {
    var s' := At(s.(pcs := if writers then WakeWriters(s.pcs) else WakeReaders(s.pcs)), p, pc);
    forall q: nat | q < |s'.pcs| ensures AboutToSleep(s', s'.pcs[q]) {
      assert q != p ==> AboutToSleep(s, s.pcs[q]);
    }
  }

  lemma WriteKeepsSleep(s: State, p: nat, fault: bool, s': State)
    requires p < |s.pcs| && |s.buf.ring.data| == PIPESIZE && LockOk(s) && SleepOk(s) && s.pcs[p].Writing?
    requires (s.pcs[p].w == WGiveUp ==> s.gaveUp) && DoWrite(s, p, s.pcs[p].bytes, s.pcs[p].i, s.pcs[p].w, fault) == Some(s')
    ensures SleepOk(s')
  {
    var bytes, i := s.pcs[p].bytes, s.pcs[p].i;
    assert AboutToSleep(s, s.pcs[p]);
    match s.pcs[p].w
    case WWant => AcquireKeepsSleep(s, p, Writing(bytes, i, WLoop));
    case WLoop =>
      WriteLoopMoves(s, p, bytes, i, fault, s');
      WriteLoopKeepsSleep(s, p, bytes, i, s');
    case WWake => WakeKeepsSleep(s, p, Writing(bytes, i, WSleep), false);
    case WSleep => ReleaseKeepsSleep(s, p, Writing(bytes, i, WAsleep));
    case WAsleep =>
    case WWoken => AcquireKeepsSleep(s, p, Writing(bytes, i, WLoop));
    case WDone => WakeKeepsSleep(s, p, Writing(bytes, i, WRelease), false);
    case WRelease => ReleaseKeepsSleep(s, p, Idle);
    case WGiveUp => ReleaseKeepsSleep(s, p, Idle);
  }

  lemma ReadLoopKeepsSleep(s: State, p: nat, n: nat, i: nat, r: RPc, s': State)
    requires p < |s.pcs| && LockOk(s) && SleepOk(s) && s.pcs[p] == Reading(n, i, r) && (r == RLoop || r == RTest)
    requires |s'.pcs| == |s.pcs| && s'.pcs == s.pcs[p := s'.pcs[p]]
    requires s'.lock == s.lock && s'.readopen == s.readopen && s'.writeopen == s.writeopen && s'.gaveUp == s.gaveUp
    requires s'.pcs[p].Reading? && s'.pcs[p].r in {RGiveUp, RSleep, RLoop, RDone}
    requires s'.pcs[p].r == RSleep ==> s.writeopen && Empty(s.buf.ring)
    requires s'.buf != s.buf ==> r == RLoop && !Empty(s.buf.ring)
    requires s'.pcs[p].r in {RSleep, RGiveUp} ==> r == RTest && s'.buf == s.buf
    ensures SleepOk(s')
  {
    assert Holding(s.pcs[p]);
    forall q: nat | q < |s'.pcs| ensures AboutToSleep(s', s'.pcs[q]) {
      assert q != p ==> AboutToSleep(s, s.pcs[q]) && !Holding(s.pcs[q]);
    }
  }

  lemma ReadKeepsSleep(s: State, p: nat, fault: bool, s': State)
    requires p < |s.pcs| && |s.buf.ring.data| == PIPESIZE && LockOk(s) && SleepOk(s) && s.pcs[p].Reading?
    requires DoRead(s, p, s.pcs[p].n, s.pcs[p].i, s.pcs[p].r, fault) == Some(s')
    ensures SleepOk(s')
  {
    var n, i, r := s.pcs[p].n, s.pcs[p].i, s.pcs[p].r;
    assert AboutToSleep(s, s.pcs[p]);
    match r
    case RWant => AcquireKeepsSleep(s, p, Reading(n, i, RTest));
    case RTest =>
      ReadLoopMoves(s, p, n, i, r, fault, s');
      ReadLoopKeepsSleep(s, p, n, i, r, s');
    case RSleep => ReleaseKeepsSleep(s, p, Reading(n, i, RAsleep));
    case RAsleep =>
    case RWoken => AcquireKeepsSleep(s, p, Reading(n, i, RTest));
    case RLoop =>
      ReadLoopMoves(s, p, n, i, r, fault, s');
      ReadLoopKeepsSleep(s, p, n, i, r, s');
    case RDone => WakeKeepsSleep(s, p, Reading(n, i, RRelease), true);
    case RRelease => ReleaseKeepsSleep(s, p, Idle);
    case RGiveUp => ReleaseKeepsSleep(s, p, Idle);
  }

  lemma CloseKeepsSleep(s: State, p: nat, s': State)
    requires p < |s.pcs| && LockOk(s) && SleepOk(s) && s.pcs[p].Closing? && DoClose(s, p, s.pcs[p].writable, s.pcs[p].c) == Some(s')
    ensures SleepOk(s')
  {
    var wr := s.pcs[p].writable;
    match s.pcs[p].c
    case CWant => AcquireKeepsSleep(s, p, Closing(wr, CSet));
    case CSet =>
      forall q: nat | q < |s'.pcs| ensures AboutToSleep(s', s'.pcs[q]) {
        assert Holding(s.pcs[p]) && (q != p ==> !Holding(s.pcs[q]));
      }
    case CWake => WakeKeepsSleep(s, p, Closing(wr, CRelease), !wr);
    case CRelease => ReleaseKeepsSleep(s, p, Idle);
  }

  /** Calls and kills. */
  lemma OtherKeepsSleep(s: State, p: nat, a: Action, s': State)
    requires p < |s.pcs| && |s.buf.ring.data| == PIPESIZE && LockOk(s) && SleepOk(s) && Do(s, p, a) == Some(s') && !a.Go? && !a.Fault?
    ensures SleepOk(s')
  {
    forall q: nat | q < |s'.pcs| ensures AboutToSleep(s', s'.pcs[q]) {
      assert AboutToSleep(s, s.pcs[q]);
    }
  }

  lemma StepKeepsSleep(s: State, p: nat, a: Action, s': State)
    requires p < |s.pcs| && |s.buf.ring.data| == PIPESIZE && LockOk(s) && SleepOk(s) && GaveUpOk(s) && Do(s, p, a) == Some(s')
    ensures SleepOk(s')
  {
    if a.Go? || a.Fault? {
      if s.pcs[p].Writing? {
        WriteKeepsSleep(s, p, a.Fault?, s');
      } else if s.pcs[p].Reading? {
        ReadKeepsSleep(s, p, a.Fault?, s');
      } else if s.pcs[p].Closing? {
        CloseKeepsSleep(s, p, s');
      }
    } else {
      OtherKeepsSleep(s, p, a, s');
    }
  }

  ghost predicate GaveUpOk(s: State) {
    forall p: nat :: p < |s.pcs| && s.pcs[p].Writing? && s.pcs[p].w == WGiveUp ==> s.gaveUp
  }

  lemma StepKeepsGaveUp(s: State, p: nat, a: Action, s': State)
    requires p < |s.pcs| && |s.buf.ring.data| == PIPESIZE && GaveUpOk(s) && Do(s, p, a) == Some(s')
    ensures GaveUpOk(s') && (s.gaveUp ==> s'.gaveUp)
  {
    if a.Go? || a.Fault? {
      if s.pcs[p].Writing? {
        WriteMoves(s, p, a.Fault?, s');
      } else if s.pcs[p].Reading? {
        ReadMoves(s, p, a.Fault?, s');
      } else if s.pcs[p].Closing? {
        CloseMoves(s, p, s');
      }
      OthersKeepGaveUp(s, s', p);
    }
  }

  lemma OthersKeepGaveUp(s: State, s': State, p: nat)
    requires p < |s.pcs| && GaveUpOk(s) && OthersWoken(s, s', p) && (s.gaveUp ==> s'.gaveUp)
    requires s'.pcs[p].Writing? && s'.pcs[p].w == WGiveUp ==> s'.gaveUp
    ensures GaveUpOk(s')
  {
  }

  // ---------------------------------------------------------------------------------------
  // Runs
  // ---------------------------------------------------------------------------------------

  lemma StepKeepsInv(s: State, p: nat, a: Action, s': State)
    requires p < |s.pcs| && Inv(s) && Do(s, p, a) == Some(s')
    ensures Inv(s') && Grows(s.buf, s'.buf)
  {
    StepKeepsBuf(s, p, a, s');
    StepKeepsLock(s, p, a, s');
    StepKeepsSleep(s, p, a, s');
    StepKeepsGaveUp(s, p, a, s');
  }

  /** A new pipe (pipe.c:33-37), with whatever its page held. */
  predicate Init(s: State) {
    && |s.buf.ring.data| == PIPESIZE && s.buf.ring.nread == 0 && s.buf.ring.nwrite == 0 && s.buf.put == [] && s.buf.taken == []
    && s.readopen && s.writeopen && s.lock.None? && !s.gaveUp
    && forall p: nat :: p < |s.pcs| ==> s.pcs[p].Idle?
  }

  datatype Move = Move(p: nat, a: Action)

  /** Move k leads from state k to the next. */
  ghost predicate StepAt(run: seq<State>, moves: seq<Move>, k: nat)
    requires k < |moves| < |run|
  {
    moves[k].p < |run[k].pcs| && |run[k].buf.ring.data| == PIPESIZE && Do(run[k], moves[k].p, moves[k].a) == Some(run[k + 1])
  }

  ghost predicate IsRun(run: seq<State>, moves: seq<Move>) {
    && |run| == |moves| + 1 && Init(run[0])
    && forall k: nat :: k < |moves| ==> StepAt(run, moves, k)
  }

  lemma {:induction false} RunKeepsInv(run: seq<State>, moves: seq<Move>, k: nat)
    requires IsRun(run, moves) && k < |run|
    ensures Inv(run[k])
  {
    if k > 0 {
      RunKeepsInv(run, moves, k - 1);
      assert Inv(run[k]) by {
        assert StepAt(run, moves, k - 1);
        StepKeepsInv(run[k - 1], moves[k - 1].p, moves[k - 1].a, run[k]);
      }
    }
  }

  /** The pipe is a FIFO: what readers have taken is what writers have put, in order, and what is
      still in the ring is at most 512 bytes, however often the counters have wrapped. */
  lemma PipeIsFifo(run: seq<State>, moves: seq<Move>, k: nat)
    requires IsRun(run, moves) && k < |run|
    ensures var b := run[k].buf; |b.taken| <= |b.put| <= |b.taken| + PIPESIZE && b.taken == b.put[..|b.taken|]
  {
    RunKeepsInv(run, moves, k);
  }

  /** With the lock free, a sleeping writer means a full ring and an open read end; a sleeping
      reader means an empty ring and an open write end, unless some writer gave up. */
  lemma SleepersAreRight(run: seq<State>, moves: seq<Move>, k: nat)
    requires IsRun(run, moves) && k < |run| && run[k].lock.None?
    ensures var s := run[k];
            && (forall p: nat :: p < |s.pcs| && WriterAsleep(s.pcs[p]) ==> |s.buf.put| == |s.buf.taken| + PIPESIZE && s.readopen)
            && (!s.gaveUp ==> forall p: nat :: p < |s.pcs| && ReaderAsleep(s.pcs[p]) ==> s.buf.put == s.buf.taken && s.writeopen)
  {
    RunKeepsInv(run, moves, k);
    FullAndEmpty(run[k].buf.ring, run[k].buf.put, run[k].buf.taken);
  }

  /** A writer that gives up leaves the readers right exactly when none of them sleeps. */
  lemma GivingUpStrandsReaders(s: State, p: nat, s': State)
    requires Inv(s) && p < |s.pcs| && s.pcs[p].Writing? && s.pcs[p].w == WGiveUp && Do(s, p, Go) == Some(s')
    ensures s'.lock.None?
    ensures ReadersOk(s') <==> forall q: nat :: q < |s.pcs| ==> !ReaderAsleep(s.pcs[q])
  {
    assert AboutToSleep(s, s.pcs[p]);
    FullAndEmpty(s.buf.ring, s.buf.put, s.buf.taken);
    assert forall q: nat :: q < |s.pcs| && q != p ==> s'.pcs[q] == s.pcs[q];
    if q: nat :| q < |s.pcs| && ReaderAsleep(s.pcs[q]) {
      assert q != p && ReaderAsleep(s'.pcs[q]);
    }
  }

  // ---------------------------------------------------------------------------------------
  // A reader left asleep beside a full ring
  // ---------------------------------------------------------------------------------------

  ghost predicate Reachable(s: State) {
    exists run: seq<State>, moves: seq<Move> :: IsRun(run, moves) && run[|moves|] == s
  }

  lemma ReachMore(s: State, p: nat, a: Action, s': State)
    requires Reachable(s) && p < |s.pcs| && |s.buf.ring.data| == PIPESIZE && Do(s, p, a) == Some(s')
    ensures Reachable(s')
  {
    var run, moves :| IsRun(run, moves) && run[|moves|] == s;
    var run', moves' := run + [s'], moves + [Move(p, a)];
    forall k: nat | k < |moves'| ensures StepAt(run', moves', k) {
      if k < |moves| {
        assert StepAt(run, moves, k);
      }
    }
    assert IsRun(run', moves') && run'[|moves'|] == s';
  }

  lemma Two(a: Pc, b: Pc, c: Pc)
    ensures [a, b][0 := c] == [c, b] && [a, b][1 := c] == [a, c]
  {
  }

  /** The state of two processes at an open pipe. */
  ghost function Pair(b: Buf, lock: Option<nat>, pc0: Pc, pc1: Pc, killed: set<nat>, gaveUp: bool): State {
    State(b, true, true, lock, [pc0, pc1], killed, gaveUp)
  }

  lemma ReaderSleeps(data: seq<bv8>)
    requires |data| == PIPESIZE
    ensures Reachable(Pair(Buf(Ring(data, 0, 0), [], []), None, Reading(1, 0, RAsleep), Idle, {}, false))
  {
    var b := Buf(Ring(data, 0, 0), [], []);
    var s0 := Pair(b, None, Idle, Idle, {}, false);
    var none: seq<Move> := [];
    assert IsRun([s0], none) && [s0][|none|] == s0;
    var s1 := Pair(b, None, Reading(1, 0, RWant), Idle, {}, false);
    Two(Idle, Idle, Reading(1, 0, RWant));
    ReachMore(s0, 0, CallRead(1), s1);
    var s2 := Pair(b, Some(0), Reading(1, 0, RTest), Idle, {}, false);
    Two(Reading(1, 0, RWant), Idle, Reading(1, 0, RTest));
    ReachMore(s1, 0, Go, s2);
    var s3 := Pair(b, Some(0), Reading(1, 0, RSleep), Idle, {}, false);
    Two(Reading(1, 0, RTest), Idle, Reading(1, 0, RSleep));
    ReachMore(s2, 0, Go, s3);
    Two(Reading(1, 0, RSleep), Idle, Reading(1, 0, RAsleep));
    ReachMore(s3, 0, Go, Pair(b, None, Reading(1, 0, RAsleep), Idle, {}, false));
  }

  /** Reader 0 sleeps while writer 1, already killed, is about to put byte i. */
  ghost function Filling(b: Buf, bytes: seq<bv8>, i: nat): State {
    Pair(b, Some(1), Reading(1, 0, RAsleep), Writing(bytes, i, WLoop), {1}, false)
  }

  lemma FillingStarts(data: seq<bv8>, bytes: seq<bv8>)
    requires |data| == PIPESIZE
    ensures Reachable(Filling(Buf(Ring(data, 0, 0), [], []), bytes, 0))
  {
    var b, rd := Buf(Ring(data, 0, 0), [], []), Reading(1, 0, RAsleep);
    ReaderSleeps(data);
    var w := Writing(bytes, 0, WWant);
    Two(rd, Idle, w);
    ReachMore(Pair(b, None, rd, Idle, {}, false), 1, CallWrite(bytes), Pair(b, None, rd, w, {}, false));
    Two(rd, w, w);
    var nobody: set<nat> := {};
    assert nobody + {1} == {1};
    ReachMore(Pair(b, None, rd, w, {}, false), 1, Kill(1), Pair(b, None, rd, w, {1}, false));
    Two(rd, w, Writing(bytes, 0, WLoop));
    ReachMore(Pair(b, None, rd, w, {1}, false), 1, Go, Filling(b, bytes, 0));
  }

  lemma {:induction false} FillingGoesOn(data: seq<bv8>, bytes: seq<bv8>, i: nat) returns (b: Buf)
    requires |data| == PIPESIZE && i <= PIPESIZE < |bytes|
    ensures BufOk(b) && |b.put| == i && b.taken == [] && Reachable(Filling(b, bytes, i))
  {
    if i == 0 {
      FillingStarts(data, bytes);
      b := Buf(Ring(data, 0, 0), [], []);
    } else {
      var b0 := FillingGoesOn(data, bytes, i - 1);
      FullAndEmpty(b0.ring, b0.put, b0.taken);
      b := BufPut(b0, bytes[i - 1]);
      PutKeepsRing(b0.ring, b0.put, b0.taken, bytes[i - 1]);
      Two(Reading(1, 0, RAsleep), Writing(bytes, i - 1, WLoop), Writing(bytes, i, WLoop));
      ReachMore(Filling(b0, bytes, i - 1), 1, Go, Filling(b, bytes, i));
    }
  }

  /** The killed writer gives up when the ring is full, and the reader sleeps on beside it. */
  lemma ReaderIsStranded(data: seq<bv8>, bytes: seq<bv8>) returns (s: State)
    requires |data| == PIPESIZE < |bytes|
    ensures Reachable(s) && s.lock.None? && |s.pcs| == 2 && ReaderAsleep(s.pcs[0]) && |s.buf.put| == PIPESIZE && s.buf.taken == []
  {
    var b := FillingGoesOn(data, bytes, PIPESIZE);
    FullAndEmpty(b.ring, b.put, b.taken);
    var rd := Reading(1, 0, RAsleep);
    var s1 := Pair(b, Some(1), rd, Writing(bytes, PIPESIZE, WGiveUp), {1}, true);
    Two(rd, Writing(bytes, PIPESIZE, WLoop), Writing(bytes, PIPESIZE, WGiveUp));
    ReachMore(Filling(b, bytes, PIPESIZE), 1, Go, s1);
    s := Pair(b, None, rd, Idle, {1}, true);
    Two(rd, Writing(bytes, PIPESIZE, WGiveUp), Idle);
    ReachMore(s1, 1, Go, s);
  }
}

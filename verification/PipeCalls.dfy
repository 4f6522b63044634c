/**
 Whole calls on a pipe: in every run the bytes that went through the ring are matched with the
 calls that put and took them, and a call that nobody disturbs is followed to its end.

 Everything here is read off the states and the moves of a run: which call a byte belongs to is
 the latest call of the process in whose step the history of the ring grew.
 */
module PipeCalls {
  import opened Common
  import opened Pipe

  // ---------------------------------------------------------------------------------------
  // Calls of a run
  // ---------------------------------------------------------------------------------------

  predicate IsCall(a: Action) {
    a.CallWrite? || a.CallRead? || a.CallClose?
  }

  /** The move that began the latest call of p. */
  function LastCall(moves: seq<Move>, k: nat, p: nat): (r: Option<nat>)
    requires k <= |moves|
    ensures r.Some? ==> r.value < k && moves[r.value].p == p && IsCall(moves[r.value].a)
  {
    if k == 0 then None
    else if moves[k - 1].p == p && IsCall(moves[k - 1].a) then Some(k - 1)
    else LastCall(moves, k - 1, p)
  }

  /** For each byte that was put, respectively taken, the call that did it. */
  ghost function Putters(run: seq<State>, moves: seq<Move>, k: nat): seq<Option<nat>>
    requires k <= |moves| < |run|
  {
    if k == 0 then []
    else if |run[k].buf.put| > |run[k - 1].buf.put| then Putters(run, moves, k - 1) + [LastCall(moves, k - 1, moves[k - 1].p)]
    else Putters(run, moves, k - 1)
  }

  ghost function Takers(run: seq<State>, moves: seq<Move>, k: nat): seq<Option<nat>>
    requires k <= |moves| < |run|
  {
    if k == 0 then []
    else if |run[k].buf.taken| > |run[k - 1].buf.taken| then Takers(run, moves, k - 1) + [LastCall(moves, k - 1, moves[k - 1].p)]
    else Takers(run, moves, k - 1)
  }

  /** The bytes of one call among all. */
  ghost function Of(bytes: seq<bv8>, calls: seq<Option<nat>>, c: nat): seq<bv8>
    requires |bytes| == |calls|
  {
    if |bytes| == 0 then []
    else
      var n := |bytes| - 1;
      Of(bytes[..n], calls[..n], c) + (if calls[n] == Some(c) then [bytes[n]] else [])
  }

  lemma OfMore(bytes: seq<bv8>, calls: seq<Option<nat>>, b: bv8, call: Option<nat>, c: nat)
    requires |bytes| == |calls|
    ensures Of(bytes + [b], calls + [call], c) == Of(bytes, calls, c) + (if call == Some(c) then [b] else [])
  {
    var n := |bytes|;
    assert (bytes + [b])[..n] == bytes && (calls + [call])[..n] == calls;
  }

  // ---------------------------------------------------------------------------------------
  // What one step does to a call
  // ---------------------------------------------------------------------------------------

  /** The call a position belongs to. */
  predicate InCall(pc: Pc, a: Action) {
    match pc
    case Idle => true
    case Writing(bytes, _, _) => a == CallWrite(bytes)
    case Reading(n, _, _) => a == CallRead(n)
    case Closing(writable, _) => a == CallClose(writable)
  }

  /** A write ends early: its copy fails, or the ring is full and nobody will read, or p is killed. */
  predicate CutsWrite(s: State, p: nat, a: Action) {
    && p < |s.pcs| && s.pcs[p].Writing? && s.pcs[p].w == WLoop && s.pcs[p].i < |s.pcs[p].bytes|
    && if Full(s.buf.ring) then !s.readopen || p in s.killed else a.Fault?
  }

  /** p's own step inside a write. */
  predicate WriteStep(s: State, p: nat, a: Action, s': State)
    requires p < |s.pcs| && p < |s'.pcs| && s.pcs[p].Writing?
  {
    var pc, pc' := s.pcs[p], s'.pcs[p];
    && s'.buf.taken == s.buf.taken
    && if s'.buf.put != s.buf.put
       then pc.w == WLoop && pc.i < |pc.bytes| && s'.buf.put == s.buf.put + [pc.bytes[pc.i]] && pc' == Writing(pc.bytes, pc.i + 1, WLoop)
       else
         || (pc'.Idle? && pc.w in {WRelease, WGiveUp})
         || (&& pc'.Writing? && pc'.bytes == pc.bytes && pc'.i == pc.i && (pc'.w == WRelease ==> pc.w == WDone)
             && (pc'.w == WDone ==> pc.i >= |pc.bytes| || CutsWrite(s, p, a))
             && (pc'.w == WGiveUp ==> CutsWrite(s, p, a)))
  }

  lemma WriteStepIs(s: State, p: nat, fault: bool, a: Action, s': State)
    requires p < |s.pcs| && |s.buf.ring.data| == PIPESIZE && s.pcs[p].Writing? && p < |s'.pcs| && fault == a.Fault?
    requires DoWrite(s, p, s.pcs[p].bytes, s.pcs[p].i, s.pcs[p].w, fault) == Some(s')
    ensures WriteStep(s, p, a, s')
  {
    match s.pcs[p].w
    case WWant =>
    case WLoop =>
    case WWake =>
    case WSleep =>
    case WAsleep =>
    case WWoken =>
    case WDone =>
    case WRelease =>
    case WGiveUp =>
  }

  /** p leaves the wait loop of piperead, gives up in it, finds the ring empty in the copy loop, or
      takes a byte whose copy fails. */
  predicate LeavesWait(s: State, p: nat) {
    p < |s.pcs| && s.pcs[p].Reading? && s.pcs[p].r == RTest && !(Empty(s.buf.ring) && s.writeopen)
  }

  predicate GivesUpRead(s: State, p: nat) {
    p < |s.pcs| && s.pcs[p].Reading? && s.pcs[p].r == RTest && Empty(s.buf.ring) && s.writeopen && p in s.killed
  }

  predicate FindsNone(s: State, p: nat) {
    p < |s.pcs| && s.pcs[p].Reading? && s.pcs[p].r == RLoop && s.pcs[p].i < s.pcs[p].n && Empty(s.buf.ring)
  }

  predicate LosesByte(s: State, p: nat, a: Action) {
    p < |s.pcs| && s.pcs[p].Reading? && s.pcs[p].r == RLoop && s.pcs[p].i < s.pcs[p].n && !Empty(s.buf.ring) && a.Fault?
  }

  predicate Waiting(r: RPc) {
    r in {RWant, RTest, RSleep, RAsleep, RWoken}
  }

  /** p's own step inside a read: it takes a byte, or the ring is left alone. */
  predicate ReadStep(s: State, p: nat, a: Action, s': State)
    requires p < |s.pcs| && p < |s'.pcs| && s.pcs[p].Reading?
  {
    s'.buf.put == s.buf.put && if s'.buf.taken != s.buf.taken then Takes(s, p, a, s') else s'.buf == s.buf && ReadsOn(s, p, s')
  }

  predicate Takes(s: State, p: nat, a: Action, s': State)
    requires p < |s.pcs| && p < |s'.pcs| && s.pcs[p].Reading?
  {
    var pc, pc' := s.pcs[p], s'.pcs[p];
    && pc.r == RLoop && pc.i < pc.n && |s'.buf.taken| == |s.buf.taken| + 1
    && if LosesByte(s, p, a) then pc' == Reading(pc.n, pc.i, RDone) else pc' == Reading(pc.n, pc.i + 1, RLoop)
  }

  predicate ReadsOn(s: State, p: nat, s': State)
    requires p < |s.pcs| && p < |s'.pcs| && s.pcs[p].Reading?
  {
    var pc, pc' := s.pcs[p], s'.pcs[p];
    || (pc'.Idle? && pc.r in {RRelease, RGiveUp})
    || (&& pc'.Reading? && pc'.n == pc.n && pc'.i == pc.i
        && (Waiting(pc'.r) ==> Waiting(pc.r)) && (pc'.r == RRelease ==> pc.r == RDone)
        && (pc'.r == RLoop ==> LeavesWait(s, p)) && (pc'.r == RGiveUp ==> GivesUpRead(s, p))
        && (pc'.r == RDone ==> pc.r == RLoop && (pc.i >= pc.n || FindsNone(s, p))))
  }

  lemma ReadStepIs(s: State, p: nat, fault: bool, a: Action, s': State)
    requires p < |s.pcs| && |s.buf.ring.data| == PIPESIZE && s.pcs[p].Reading? && p < |s'.pcs| && fault == a.Fault?
    requires DoRead(s, p, s.pcs[p].n, s.pcs[p].i, s.pcs[p].r, fault) == Some(s')
    ensures ReadStep(s, p, a, s')
  {
    match s.pcs[p].r
    case RWant =>
    case RTest =>
    case RSleep =>
    case RAsleep =>
    case RWoken =>
    case RLoop =>
    case RDone =>
    case RRelease =>
    case RGiveUp =>
  }

  /** The flag of one end of the pipe. */
  predicate Open(s: State, writable: bool) {
    if writable then s.writeopen else s.readopen
  }

  /** p's own step inside a close. */
  predicate CloseStep(s: State, p: nat, s': State)
    requires p < |s.pcs| && p < |s'.pcs| && s.pcs[p].Closing?
  {
    var pc, pc' := s.pcs[p], s'.pcs[p];
    && s'.buf == s.buf && Open(s', !pc.writable) == Open(s, !pc.writable) && (!Open(s, pc.writable) ==> !Open(s', pc.writable))
    && match pc.c
       case CWant => pc' == Closing(pc.writable, CSet)
       case CSet => pc' == Closing(pc.writable, CWake) && !Open(s', pc.writable)
       case CWake => pc' == Closing(pc.writable, CRelease)
       case CRelease => pc'.Idle?
  }

  lemma CloseStepIs(s: State, p: nat, s': State)
    requires p < |s.pcs| && s.pcs[p].Closing? && p < |s'.pcs| && DoClose(s, p, s.pcs[p].writable, s.pcs[p].c) == Some(s')
    ensures CloseStep(s, p, s')
  {
  }

  /** A process that does not move stays where it is, or is woken. */
  predicate Rests(pc: Pc, pc': Pc) {
    || pc' == pc
    || (WriterAsleep(pc) && pc' == Writing(pc.bytes, pc.i, WWoken))
    || (ReaderAsleep(pc) && pc' == Reading(pc.n, pc.i, RWoken))
  }

  lemma OthersRest(s: State, p: nat, a: Action, s': State, q: nat)
    requires p < |s.pcs| && |s.buf.ring.data| == PIPESIZE && Do(s, p, a) == Some(s') && q < |s.pcs|
    ensures |s'.pcs| == |s.pcs| && (q != p || a.Kill? ==> Rests(s.pcs[q], s'.pcs[q]))
  {
    if a.Go? || a.Fault? {
      if s.pcs[p].Writing? {
        WriteMoves(s, p, a.Fault?, s');
      } else if s.pcs[p].Reading? {
        ReadMoves(s, p, a.Fault?, s');
      } else if s.pcs[p].Closing? {
        CloseMoves(s, p, s');
      }
    }
  }

  /** The histories grow by one byte or not at all, and only in a step inside a write or a read. */
  lemma HistoryGrows(s: State, p: nat, a: Action, s': State)
    requires p < |s.pcs| && |s.buf.ring.data| == PIPESIZE && Do(s, p, a) == Some(s')
    ensures s'.buf.put == s.buf.put || (|s'.buf.put| == |s.buf.put| + 1 && s'.buf.put == s.buf.put + [s'.buf.put[|s.buf.put|]])
    ensures s'.buf.taken == s.buf.taken || (|s'.buf.taken| == |s.buf.taken| + 1 && s'.buf.taken == s.buf.taken + [s'.buf.taken[|s.buf.taken|]])
    ensures !((a.Go? || a.Fault?) && s.pcs[p].Writing?) ==> s'.buf.put == s.buf.put
    ensures !((a.Go? || a.Fault?) && s.pcs[p].Reading?) ==> s'.buf.taken == s.buf.taken
  {
    StepBuf(s, p, a, s');
    OthersRest(s, p, a, s', p);
    if a.Go? || a.Fault? {
      if s.pcs[p].Writing? {
        WriteStepIs(s, p, a.Fault?, a, s');
      } else if s.pcs[p].Reading? {
        ReadStepIs(s, p, a.Fault?, a, s');
      } else if s.pcs[p].Closing? {
        CloseStepIs(s, p, s');
      }
    }
  }

  /** The step that leads to state k of a run. */
  lemma StepOf(run: seq<State>, moves: seq<Move>, k: nat)
    requires IsRun(run, moves) && 0 < k < |run|
    ensures var s, m := run[k - 1], moves[k - 1];
            Inv(s) && m.p < |s.pcs| && |s.buf.ring.data| == PIPESIZE && Do(s, m.p, m.a) == Some(run[k])
  {
    RunKeepsInv(run, moves, k - 1);
    assert StepAt(run, moves, k - 1);
  }

  lemma {:induction false} SameProcs(run: seq<State>, moves: seq<Move>, k: nat)
    requires IsRun(run, moves) && k < |run|
    ensures |run[k].pcs| == |run[0].pcs|
  {
    if k > 0 {
      SameProcs(run, moves, k - 1);
      assert |run[k].pcs| == |run[k - 1].pcs| by {
        StepOf(run, moves, k);
        OthersRest(run[k - 1], moves[k - 1].p, moves[k - 1].a, run[k], moves[k - 1].p);
      }
    }
  }

  /** Every byte put, and every byte taken, has its call. */
  lemma {:induction false} EachByteHasCall(run: seq<State>, moves: seq<Move>, k: nat)
    requires IsRun(run, moves) && k < |run|
    ensures |Putters(run, moves, k)| == |run[k].buf.put| && |Takers(run, moves, k)| == |run[k].buf.taken|
  {
    if k > 0 {
      StepOf(run, moves, k);
      EachByteHasCall(run, moves, k - 1);
      HistoryGrows(run[k - 1], moves[k - 1].p, moves[k - 1].a, run[k]);
    }
  }

  // ---------------------------------------------------------------------------------------
  // Writes
  // ---------------------------------------------------------------------------------------

  /** How a write of `bytes` stands that has put `part` so far; `live` while it goes on. */
  predicate WriteStands(pc: Pc, live: bool, bytes: seq<bv8>, part: seq<bv8>, cut: bool) {
    && |part| <= |bytes| && part == bytes[..|part|]
    && if live
       then && pc.Writing? && pc.bytes == bytes && pc.i == |part|
            && (pc.w in {WDone, WRelease} ==> part == bytes || cut) && (pc.w == WGiveUp ==> cut)
       else part == bytes || cut
  }

  /** p's own step inside a live write. */
  lemma OwnWrite(s: State, p: nat, a: Action, s': State, bytes: seq<bv8>, part: seq<bv8>, cut: bool) returns (part': seq<bv8>)
    requires p < |s.pcs| && p < |s'.pcs| && s.pcs[p].Writing? && WriteStep(s, p, a, s') && WriteStands(s.pcs[p], true, bytes, part, cut)
    ensures if s'.buf.put == s.buf.put then part' == part
            else |s'.buf.put| == |s.buf.put| + 1 && part' == part + [s'.buf.put[|s.buf.put|]]
    ensures WriteStands(s'.pcs[p], !s'.pcs[p].Idle?, bytes, part', cut || CutsWrite(s, p, a))
  {
    var pc := s.pcs[p];
    if s'.buf.put == s.buf.put {
      part' := part;
    } else {
      part' := part + [bytes[pc.i]];
      assert bytes[..pc.i + 1] == bytes[..pc.i] + [bytes[pc.i]];
    }
    assert part == bytes[..|part|] && (|part| == |bytes| ==> part == bytes);
  }

  /** A step of another process, or a kill. */
  lemma OtherWrite(pc: Pc, pc': Pc, live: bool, bytes: seq<bv8>, part: seq<bv8>, cut: bool)
    requires WriteStands(pc, live, bytes, part, cut) && Rests(pc, pc')
    ensures WriteStands(pc', live, bytes, part, cut)
  {
  }

  /** During call c its process met a reason to end the write early. */
  ghost predicate CutShort(run: seq<State>, moves: seq<Move>, c: nat, k: nat)
    requires c < k <= |moves| < |run|
  {
    exists m: nat :: c < m < k && moves[m].p == moves[c].p && LastCall(moves, m, moves[c].p) == Some(c) && CutsWrite(run[m], moves[m].p, moves[m].a)
  }

  predicate Live(run: seq<State>, moves: seq<Move>, c: nat, k: nat)
    requires c < k <= |moves| < |run| && moves[c].p < |run[k].pcs|
  {
    LastCall(moves, k, moves[c].p) == Some(c) && !run[k].pcs[moves[c].p].Idle?
  }

  /** The bytes of call c that have been put. */
  ghost function PartOf(run: seq<State>, moves: seq<Move>, c: nat, k: nat): seq<bv8>
    requires IsRun(run, moves) && k < |run|
  {
    EachByteHasCall(run, moves, k);
    Of(run[k].buf.put, Putters(run, moves, k), c)
  }

  lemma PartGrows(run: seq<State>, moves: seq<Move>, c: nat, k: nat)
    requires IsRun(run, moves) && 0 < k < |run|
    ensures var put, put' := run[k - 1].buf.put, run[k].buf.put;
            PartOf(run, moves, c, k) == if |put'| > |put| && LastCall(moves, k - 1, moves[k - 1].p) == Some(c)
                                        then PartOf(run, moves, c, k - 1) + [put'[|put|]] else PartOf(run, moves, c, k - 1)
  {
    var put, put' := run[k - 1].buf.put, run[k].buf.put;
    EachByteHasCall(run, moves, k - 1);
    assert put' == put || (|put'| == |put| + 1 && put' == put + [put'[|put|]]) by {
      StepOf(run, moves, k);
      HistoryGrows(run[k - 1], moves[k - 1].p, moves[k - 1].a, run[k]);
    }
    if |put'| > |put| {
      OfMore(put, Putters(run, moves, k - 1), put'[|put|], LastCall(moves, k - 1, moves[k - 1].p), c);
    }
  }

  ghost predicate WriteAt(run: seq<State>, moves: seq<Move>, c: nat, k: nat)
    requires IsRun(run, moves) && c < k < |run| && moves[c].a.CallWrite?
  {
    && moves[c].p < |run[k].pcs|
    && WriteStands(run[k].pcs[moves[c].p], Live(run, moves, c, k), moves[c].a.bytes, PartOf(run, moves, c, k), CutShort(run, moves, c, k))
  }

  lemma {:induction false} NothingBefore(run: seq<State>, moves: seq<Move>, c: nat, k: nat)
    requires IsRun(run, moves) && k < |run| && k <= c
    ensures PartOf(run, moves, c, k) == []
  {
    if k > 0 {
      NothingBefore(run, moves, c, k - 1);
      PartGrows(run, moves, c, k);
    }
  }

  lemma CutKept(run: seq<State>, moves: seq<Move>, c: nat, k: nat)
    requires IsRun(run, moves) && c + 1 < k < |run|
    ensures CutShort(run, moves, c, k - 1) ==> CutShort(run, moves, c, k)
    ensures moves[k - 1].p == moves[c].p && LastCall(moves, k - 1, moves[c].p) == Some(c) && CutsWrite(run[k - 1], moves[c].p, moves[k - 1].a) ==>
              CutShort(run, moves, c, k)
  {
  }

  lemma MoreCut(pc: Pc, live: bool, bytes: seq<bv8>, part: seq<bv8>, cut: bool, cut': bool)
    requires WriteStands(pc, live, bytes, part, cut) && (cut ==> cut')
    ensures WriteStands(pc, live, bytes, part, cut')
  {
  }

  /** A step of p itself. */
  lemma OwnWriteGoesOn(run: seq<State>, moves: seq<Move>, c: nat, k: nat)
    requires IsRun(run, moves) && c + 1 < k < |run| && moves[c].a.CallWrite? && moves[c].p < |run[k].pcs|
    requires WriteAt(run, moves, c, k - 1) && Live(run, moves, c, k - 1)
    requires moves[k - 1].p == moves[c].p && (moves[k - 1].a.Go? || moves[k - 1].a.Fault?)
    ensures WriteAt(run, moves, c, k)
  {
    var s, a, s', p := run[k - 1], moves[k - 1].a, run[k], moves[c].p;
    assert WriteStep(s, p, a, s') by {
      StepOf(run, moves, k);
      WriteStepIs(s, p, a.Fault?, a, s');
    }
    var part, cut := PartOf(run, moves, c, k - 1), CutShort(run, moves, c, k - 1);
    var part' := OwnWrite(s, p, a, s', moves[c].a.bytes, part, cut);
    assert part' == PartOf(run, moves, c, k) by { PartGrows(run, moves, c, k); }
    CutKept(run, moves, c, k);
    MoreCut(s'.pcs[p], Live(run, moves, c, k), moves[c].a.bytes, part', cut || CutsWrite(s, p, a), CutShort(run, moves, c, k));
  }

  /** A step that is not one of this write. */
  lemma OtherStep(run: seq<State>, moves: seq<Move>, c: nat, k: nat)
    requires IsRun(run, moves) && c + 1 < k < |run| && IsCall(moves[c].a) && moves[c].p < |run[k].pcs| && moves[c].p < |run[k - 1].pcs|
    requires !(Live(run, moves, c, k - 1) && moves[k - 1].p == moves[c].p && (moves[k - 1].a.Go? || moves[k - 1].a.Fault?))
    ensures Live(run, moves, c, k) == Live(run, moves, c, k - 1)
    ensures Live(run, moves, c, k) ==> Rests(run[k - 1].pcs[moves[c].p], run[k].pcs[moves[c].p])
    ensures LastCall(moves, k - 1, moves[k - 1].p) == Some(c) ==> run[k].buf == run[k - 1].buf
  {
    var s, m, s', p := run[k - 1], moves[k - 1], run[k], moves[c].p;
    StepOf(run, moves, k);
    OthersRest(s, m.p, m.a, s', p);
  }

  lemma WriteGoesOn(run: seq<State>, moves: seq<Move>, c: nat, k: nat)
    requires IsRun(run, moves) && c + 1 < k < |run| && moves[c].a.CallWrite? && moves[c].p < |run[k].pcs|
    requires WriteAt(run, moves, c, k - 1)
    ensures WriteAt(run, moves, c, k)
  {
    var m, p := moves[k - 1], moves[c].p;
    var part, cut, live := PartOf(run, moves, c, k - 1), CutShort(run, moves, c, k - 1), Live(run, moves, c, k - 1);
    if live && m.p == p && (m.a.Go? || m.a.Fault?) {
      OwnWriteGoesOn(run, moves, c, k);
    } else {
      OtherStep(run, moves, c, k);
      assert PartOf(run, moves, c, k) == part by { PartGrows(run, moves, c, k); }
      CutKept(run, moves, c, k);
      MoreCut(run[k - 1].pcs[p], live, moves[c].a.bytes, part, cut, CutShort(run, moves, c, k));
      if live {
        OtherWrite(run[k - 1].pcs[p], run[k].pcs[p], live, moves[c].a.bytes, part, CutShort(run, moves, c, k));
      }
    }
  }

  /** The process of a call is one of the run. */
  lemma CallerIsThere(run: seq<State>, moves: seq<Move>, c: nat, k: nat)
    requires IsRun(run, moves) && c < |moves| && k < |run|
    ensures moves[c].p < |run[k].pcs|
  {
    assert StepAt(run, moves, c);
    SameProcs(run, moves, c);
    SameProcs(run, moves, k);
  }

  lemma WriteBegins(run: seq<State>, moves: seq<Move>, c: nat)
    requires IsRun(run, moves) && c + 1 < |run| && moves[c].a.CallWrite? && moves[c].p < |run[c + 1].pcs|
    ensures WriteAt(run, moves, c, c + 1)
  {
    assert PartOf(run, moves, c, c + 1) == [] by {
      NothingBefore(run, moves, c, c);
      PartGrows(run, moves, c, c + 1);
      assert LastCall(moves, c, moves[c].p) != Some(c);
    }
    assert run[c + 1].pcs[moves[c].p] == Writing(moves[c].a.bytes, 0, WWant) by { StepOf(run, moves, c + 1); }
  }

  /** The bytes of `put` that belong to one call are a prefix of the bytes it was given, in order;
      while it goes on they are as many as it has counted, and when it is over they are all of
      them, unless its copy failed or it had to give up. */
  lemma {:induction false} WritesItsBytes(run: seq<State>, moves: seq<Move>, c: nat, k: nat)
    requires IsRun(run, moves) && c < k < |run| && moves[c].a.CallWrite?
    ensures WriteAt(run, moves, c, k)
  {
    if k == c + 1 {
      assert WriteAt(run, moves, c, k) by {
        CallerIsThere(run, moves, c, k);
        WriteBegins(run, moves, c);
      }
    } else {
      WritesItsBytes(run, moves, c, k - 1);
      assert WriteAt(run, moves, c, k) by {
        CallerIsThere(run, moves, c, k);
        WriteGoesOn(run, moves, c, k);
      }
    }
  }

  // ---------------------------------------------------------------------------------------
  // Reads
  // ---------------------------------------------------------------------------------------

  /** The calls from b on, n of them, are c, and no other is. */
  ghost predicate Span(calls: seq<Option<nat>>, c: nat, b: nat, n: nat) {
    b + n <= |calls| && forall j: nat :: j < |calls| ==> (calls[j] == Some(c) <==> b <= j < b + n)
  }

  /** What a read has met: an empty ring in its copy loop, a failed copy, a kill while it would
      wait, an empty ring without writers when it left the wait loop. */
  datatype Past = Past(drained: bool, lost: bool, gaveUp: bool, closed: bool)

  /** Why a read may end with m bytes of n. */
  predicate OverWith(n: nat, m: nat, e: Past) {
    && (m == n || e.drained || e.lost || e.gaveUp)
    && (m == 0 ==> n == 0 || e.closed || e.gaveUp)
  }

  /** How a read of up to n bytes stands that has taken m; `last`: they are the last taken of all. */
  predicate ReadStands(pc: Pc, live: bool, n: nat, empty: bool, last: bool, m: nat, e: Past) {
    && m <= n
    && if !live then OverWith(n, m, e)
       else pc.Reading? && pc.n == n && match pc.r
         case RLoop => last && pc.i == m && !e.lost && (m == 0 ==> !empty || e.closed)
         case RDone => if e.lost then m == pc.i + 1 else pc.i == m && OverWith(n, m, e)
         case RRelease => if e.lost then m == pc.i + 1 else pc.i == m && OverWith(n, m, e)
         case RGiveUp => m == 0 && e.gaveUp
         case _ => m == 0 && pc.i == 0 && !e.lost
  }

  /** The past after one more step of p. */
  function Met(e: Past, s: State, p: nat, a: Action): Past {
    Past(e.drained || FindsNone(s, p), e.lost || LosesByte(s, p, a), e.gaveUp || GivesUpRead(s, p),
         e.closed || (LeavesWait(s, p) && Empty(s.buf.ring) && !s.writeopen))
  }

  /** What the read that began with move c has met before state k. */
  ghost function Story(run: seq<State>, moves: seq<Move>, c: nat, k: nat): Past
    requires c < k <= |moves| < |run|
  {
    if k == c + 1 then Past(false, false, false, false)
    else
      var e, p := Story(run, moves, c, k - 1), moves[c].p;
      if moves[k - 1].p == p && LastCall(moves, k - 1, p) == Some(c) then Met(e, run[k - 1], p, moves[k - 1].a) else e
  }

  /** p's own step inside a live read. */
  lemma OwnRead(s: State, p: nat, a: Action, s': State, n: nat, last: bool, m: nat, e: Past)
    requires p < |s.pcs| && p < |s'.pcs| && s.pcs[p].Reading? && ReadStep(s, p, a, s')
    requires ReadStands(s.pcs[p], true, n, Empty(s.buf.ring), last, m, e)
    ensures var m' := if s'.buf.taken == s.buf.taken then m else m + 1;
            && ReadStands(s'.pcs[p], !s'.pcs[p].Idle?, n, Empty(s'.buf.ring), last || s'.pcs[p] == Reading(n, 0, RLoop), m', Met(e, s, p, a))
            && (m' == m + 1 ==> last)
            && (s'.pcs[p] == Reading(n, 0, RLoop) ==> m' == 0)
  {
  }

  /** A step of another process: nobody touches the ring while p is in its copy loop. */
  lemma OtherRead(pc: Pc, pc': Pc, live: bool, n: nat, empty: bool, empty': bool, last: bool, last': bool, m: nat, e: Past)
    requires ReadStands(pc, live, n, empty, last, m, e) && Rests(pc, pc')
    requires live && pc.Reading? && pc.r == RLoop ==> empty' == empty && last' == last
    ensures ReadStands(pc', live, n, empty', last', m, e)
  {
  }

  lemma HolderKeepsRing(s: State, q: nat, a: Action, s': State, p: nat)
    requires Inv(s) && q < |s.pcs| && Do(s, q, a) == Some(s') && p < |s.pcs| && Holding(s.pcs[p]) && (p != q || a.Kill?)
    ensures s'.buf == s.buf
  {
    StepBuf(s, q, a, s');
    assert p != q ==> !Holding(s.pcs[q]);
  }

  /** One more byte is taken, by another call or by this one. */
  lemma SpanKept(calls: seq<Option<nat>>, c: nat, b: nat, m: nat, call: Option<nat>)
    requires Span(calls, c, b, m) && call != Some(c)
    ensures Span(calls + [call], c, b, m)
  {
  }

  lemma SpanGrows(calls: seq<Option<nat>>, c: nat, b: nat, m: nat)
    requires Span(calls, c, b, m) && b + m == |calls|
    ensures Span(calls + [Some(c)], c, b, m + 1)
  {
  }

  lemma SpanMoves(calls: seq<Option<nat>>, c: nat, b: nat)
    requires Span(calls, c, b, 0)
    ensures Span(calls, c, |calls|, 0)
  {
  }

  /** How the read that began with move c stands at state k, with its bytes taken[b..b + m]. */
  ghost predicate ReadAt(run: seq<State>, moves: seq<Move>, c: nat, k: nat, b: nat, m: nat)
    requires c < k <= |moves| < |run| && moves[c].a.CallRead?
  {
    var s, p := run[k], moves[c].p;
    && p < |s.pcs| && |Takers(run, moves, k)| == |s.buf.taken| && Span(Takers(run, moves, k), c, b, m)
    && ReadStands(s.pcs[p], Live(run, moves, c, k), moves[c].a.n, Empty(s.buf.ring), b + m == |s.buf.taken|, m, Story(run, moves, c, k))
  }

  lemma {:induction false} NoTakerBefore(run: seq<State>, moves: seq<Move>, c: nat, k: nat)
    requires IsRun(run, moves) && k < |run| && k <= c
    ensures Span(Takers(run, moves, k), c, 0, 0)
  {
    if k > 0 {
      NoTakerBefore(run, moves, c, k - 1);
    }
  }

  lemma ReadBegins(run: seq<State>, moves: seq<Move>, c: nat)
    requires IsRun(run, moves) && c + 1 < |run| && moves[c].a.CallRead? && moves[c].p < |run[c + 1].pcs|
    ensures ReadAt(run, moves, c, c + 1, 0, 0)
  {
    NoTakerBefore(run, moves, c, c);
    EachByteHasCall(run, moves, c + 1);
    assert run[c + 1].pcs[moves[c].p] == Reading(moves[c].a.n, 0, RWant) && run[c + 1].buf == run[c].buf by { StepOf(run, moves, c + 1); }
  }

  /** A step of p itself. */
  lemma OwnReadGoesOn(run: seq<State>, moves: seq<Move>, c: nat, k: nat, b: nat, m: nat) returns (b': nat, m': nat)
    requires IsRun(run, moves) && c + 1 < k < |run| && moves[c].a.CallRead? && moves[c].p < |run[k].pcs|
    requires ReadAt(run, moves, c, k - 1, b, m) && Live(run, moves, c, k - 1)
    requires moves[k - 1].p == moves[c].p && (moves[k - 1].a.Go? || moves[k - 1].a.Fault?)
    ensures ReadAt(run, moves, c, k, b', m')
  {
    var s, a, s', p := run[k - 1], moves[k - 1].a, run[k], moves[c].p;
    var calls, n, e := Takers(run, moves, k - 1), moves[c].a.n, Story(run, moves, c, k - 1);
    StepOf(run, moves, k);
    EachByteHasCall(run, moves, k);
    ReadStepIs(s, p, a.Fault?, a, s');
    OwnRead(s, p, a, s', n, b + m == |s.buf.taken|, m, e);
    b', m' := b, m;
    if s'.buf.taken != s.buf.taken {
      SpanGrows(calls, c, b, m);
      m' := m + 1;
    } else if s'.pcs[p] == Reading(n, 0, RLoop) {
      SpanMoves(calls, c, b);
      b' := |calls|;
    }
  }

  lemma RingRests(run: seq<State>, moves: seq<Move>, k: nat, p: nat)
    requires IsRun(run, moves) && 0 < k < |run| && p < |run[k - 1].pcs| && Holding(run[k - 1].pcs[p])
    requires moves[k - 1].p != p || IsCall(moves[k - 1].a) || moves[k - 1].a.Kill?
    ensures run[k].buf == run[k - 1].buf
  {
    StepOf(run, moves, k);
    if moves[k - 1].p != p || moves[k - 1].a.Kill? {
      HolderKeepsRing(run[k - 1], moves[k - 1].p, moves[k - 1].a, run[k], p);
    }
  }

  /** A step that is not one of this read. */
  lemma OtherReadGoesOn(run: seq<State>, moves: seq<Move>, c: nat, k: nat, b: nat, m: nat)
    requires IsRun(run, moves) && c + 1 < k < |run| && moves[c].a.CallRead? && moves[c].p < |run[k].pcs|
    requires ReadAt(run, moves, c, k - 1, b, m)
    requires !(Live(run, moves, c, k - 1) && moves[k - 1].p == moves[c].p && (moves[k - 1].a.Go? || moves[k - 1].a.Fault?))
    ensures ReadAt(run, moves, c, k, b, m)
  {
    var s, mv, s', p := run[k - 1], moves[k - 1], run[k], moves[c].p;
    OtherStep(run, moves, c, k);
    EachByteHasCall(run, moves, k);
    var live := Live(run, moves, c, k - 1);
    if s'.buf.taken != s.buf.taken {
      SpanKept(Takers(run, moves, k - 1), c, b, m, LastCall(moves, k - 1, mv.p));
    }
    assert live && s.pcs[p].r == RLoop ==> s'.buf == s.buf by {
      if live && s.pcs[p].r == RLoop {
        RingRests(run, moves, k, p);
      }
    }
    if live {
      OtherRead(s.pcs[p], s'.pcs[p], live, moves[c].a.n, Empty(s.buf.ring), Empty(s'.buf.ring), b + m == |s.buf.taken|, b + m == |s'.buf.taken|, m,
                Story(run, moves, c, k));
    }
  }

  /** What one piperead takes is a run of at most n consecutive bytes of `taken`: all of them unless
      it met an empty ring, a failed copy or a kill; and none only if n is 0, it gave up, or it
      found the ring empty and the write end closed when it left the wait loop. */
  lemma {:induction false} ReadsConsecutively(run: seq<State>, moves: seq<Move>, c: nat, k: nat) returns (b: nat, m: nat)
    requires IsRun(run, moves) && c < k < |run| && moves[c].a.CallRead?
    ensures ReadAt(run, moves, c, k, b, m)
  {
    CallerIsThere(run, moves, c, k);
    if k == c + 1 {
      ReadBegins(run, moves, c);
      b, m := 0, 0;
    } else {
      b, m := ReadsConsecutively(run, moves, c, k - 1);
      if Live(run, moves, c, k - 1) && moves[k - 1].p == moves[c].p && (moves[k - 1].a.Go? || moves[k - 1].a.Fault?) {
        b, m := OwnReadGoesOn(run, moves, c, k, b, m);
      } else {
        OtherReadGoesOn(run, moves, c, k, b, m);
      }
    }
  }

  // ---------------------------------------------------------------------------------------
  // Every byte comes from a write and goes to a read
  // ---------------------------------------------------------------------------------------

  ghost predicate CallIs(moves: seq<Move>, k: nat, p: nat, pc: Pc)
    requires k <= |moves|
  {
    pc.Idle? || (LastCall(moves, k, p).Some? && InCall(pc, moves[LastCall(moves, k, p).value].a))
  }

  lemma StepKeepsCall(s: State, p: nat, a: Action, s': State)
    requires p < |s.pcs| && |s.buf.ring.data| == PIPESIZE && Do(s, p, a) == Some(s') && p < |s'.pcs| && (a.Go? || a.Fault?)
    ensures forall call: Action :: IsCall(call) && InCall(s.pcs[p], call) ==> InCall(s'.pcs[p], call)
  {
    if s.pcs[p].Writing? {
      WriteStepIs(s, p, a.Fault?, a, s');
    } else if s.pcs[p].Reading? {
      ReadStepIs(s, p, a.Fault?, a, s');
    } else if s.pcs[p].Closing? {
      CloseStepIs(s, p, s');
    }
  }

  /** A process inside the pipe code is in its latest call. */
  lemma {:induction false} InItsCall(run: seq<State>, moves: seq<Move>, k: nat, p: nat)
    requires IsRun(run, moves) && k < |run| && p < |run[k].pcs|
    ensures CallIs(moves, k, p, run[k].pcs[p])
  {
    if k > 0 {
      var s, m, s' := run[k - 1], moves[k - 1], run[k];
      StepOf(run, moves, k);
      OthersRest(s, m.p, m.a, s', m.p);
      InItsCall(run, moves, k - 1, p);
      if m.p == p && (m.a.Go? || m.a.Fault?) {
        StepKeepsCall(s, p, m.a, s');
      } else {
        OthersRest(s, m.p, m.a, s', p);
      }
    }
  }

  ghost predicate IsWrite(moves: seq<Move>, call: Option<nat>) {
    call.Some? && call.value < |moves| && moves[call.value].a.CallWrite?
  }

  ghost predicate IsRead(moves: seq<Move>, call: Option<nat>) {
    call.Some? && call.value < |moves| && moves[call.value].a.CallRead?
  }

  /** No byte is put but by a write, and none is taken but by a read. */
  lemma {:induction false} BytesHaveCalls(run: seq<State>, moves: seq<Move>, k: nat)
    requires IsRun(run, moves) && k < |run|
    ensures forall j: nat :: j < |Putters(run, moves, k)| ==> IsWrite(moves, Putters(run, moves, k)[j])
    ensures forall j: nat :: j < |Takers(run, moves, k)| ==> IsRead(moves, Takers(run, moves, k)[j])
  {
    if k > 0 {
      var s, m, s' := run[k - 1], moves[k - 1], run[k];
      BytesHaveCalls(run, moves, k - 1);
      assert m.p < |s.pcs| && (s'.buf.put != s.buf.put ==> s.pcs[m.p].Writing?) && (s'.buf.taken != s.buf.taken ==> s.pcs[m.p].Reading?) by {
        StepOf(run, moves, k);
        HistoryGrows(s, m.p, m.a, s');
      }
      InItsCall(run, moves, k - 1, m.p);
    }
  }

  // ---------------------------------------------------------------------------------------
  // Closing and killing
  // ---------------------------------------------------------------------------------------

  /** A closed end stays closed, and only a close of that end closes it. */
  lemma FlagMoves(s: State, p: nat, a: Action, s': State, writable: bool)
    requires p < |s.pcs| && |s.buf.ring.data| == PIPESIZE && Do(s, p, a) == Some(s')
    ensures !Open(s, writable) ==> !Open(s', writable)
    ensures Open(s, writable) && !Open(s', writable) ==> s.pcs[p].Closing? && s.pcs[p].writable == writable
  {
    OthersRest(s, p, a, s', p);
    if (a.Go? || a.Fault?) && s.pcs[p].Closing? {
      CloseStepIs(s, p, s');
    }
  }

  /** An end is closed only by a close of that end. */
  lemma {:induction false} ClosedByCall(run: seq<State>, moves: seq<Move>, k: nat, writable: bool) returns (c: nat)
    requires IsRun(run, moves) && k < |run| && !Open(run[k], writable)
    ensures c < k && moves[c].a == CallClose(writable)
  {
    StepOf(run, moves, k);
    if !Open(run[k - 1], writable) {
      c := ClosedByCall(run, moves, k - 1, writable);
    } else {
      var p := moves[k - 1].p;
      FlagMoves(run[k - 1], p, moves[k - 1].a, run[k], writable);
      InItsCall(run, moves, k - 1, p);
      c := LastCall(moves, k - 1, p).value;
    }
  }

  ghost predicate CloseAt(run: seq<State>, moves: seq<Move>, c: nat, k: nat)
    requires c < k <= |moves| < |run| && moves[c].a.CallClose?
  {
    var p, writable := moves[c].p, moves[c].a.writable;
    p < |run[k].pcs| && if Live(run, moves, c, k)
      then var pc := run[k].pcs[p]; pc.Closing? && pc.writable == writable && (pc.c in {CWake, CRelease} ==> !Open(run[k], writable))
      else !Open(run[k], writable)
  }

  /** When a close is over its end is closed, and stays so. */
  lemma {:induction false} CloseCloses(run: seq<State>, moves: seq<Move>, c: nat, k: nat)
    requires IsRun(run, moves) && c < k < |run| && moves[c].a.CallClose?
    ensures CloseAt(run, moves, c, k)
  {
    var s, m, s', p := run[k - 1], moves[k - 1], run[k], moves[c].p;
    CallerIsThere(run, moves, c, k);
    StepOf(run, moves, k);
    if k > c + 1 {
      CloseCloses(run, moves, c, k - 1);
      FlagMoves(s, m.p, m.a, s', moves[c].a.writable);
      if Live(run, moves, c, k - 1) && m.p == p && (m.a.Go? || m.a.Fault?) {
        CloseStepIs(s, p, s');
      } else {
        OtherStep(run, moves, c, k);
      }
    }
  }

  /** A process is killed from the kill on, and is not asleep in the pipe then. */
  lemma KillWakes(s: State, p: nat, q: nat, s': State)
    requires p < |s.pcs| && |s.buf.ring.data| == PIPESIZE && Do(s, p, Kill(q)) == Some(s')
    ensures q < |s'.pcs| && s'.killed == s.killed + {q} && Awake(s'.pcs[q])
  {
  }

  lemma OnlyKillsKill(s: State, p: nat, a: Action, s': State)
    requires p < |s.pcs| && |s.buf.ring.data| == PIPESIZE && Do(s, p, a) == Some(s') && !a.Kill?
    ensures s'.killed == s.killed
  {
  }

  /** A process is killed iff it was from the start or somebody has killed it. */
  lemma {:induction false} KilledIff(run: seq<State>, moves: seq<Move>, k: nat, q: nat)
    requires IsRun(run, moves) && k < |run|
    ensures q in run[k].killed <==> q in run[0].killed || exists c: nat :: c < k && moves[c].a == Kill(q)
  {
    if k > 0 {
      var s, m, s' := run[k - 1], moves[k - 1], run[k];
      KilledIff(run, moves, k - 1, q);
      assert s'.killed == if m.a.Kill? then s.killed + {m.a.q} else s.killed by {
        StepOf(run, moves, k);
        if m.a.Kill? {
          KillWakes(s, m.p, m.a.q, s');
        } else {
          OnlyKillsKill(s, m.p, m.a, s');
        }
      }
    }
  }

  // ---------------------------------------------------------------------------------------
  // Calls that nobody disturbs
  // ---------------------------------------------------------------------------------------

  /** Always true: under it a step is a mere name to the verifier until it is looked into. */
  predicate StepKey(k: nat) {
    true
  }

  /** p's next step leads from s to t. */
  ghost predicate Goes(s: State, p: nat, t: State) {
    forall k: nat :: StepKey(k) ==> p < |s.pcs| && |s.buf.ring.data| == PIPESIZE && Do(s, p, Go) == Some(t)
  }

  /** n steps of p, and of nobody else, lead from s to t. */
  ghost predicate Alone(s: State, p: nat, n: nat, t: State)
    decreases n
  {
    if n == 0 then s == t else exists r :: Goes(s, p, r) && Alone(r, p, n - 1, t)
  }

  lemma GoStep(s: State, p: nat, t: State)
    requires p < |s.pcs| && |s.buf.ring.data| == PIPESIZE && Do(s, p, Go) == Some(t)
    ensures Goes(s, p, t)
  {
  }

  lemma {:induction false} AloneThen(s: State, p: nat, n: nat, t: State, m: nat, u: State)
    requires Alone(s, p, n, t) && Alone(t, p, m, u)
    ensures Alone(s, p, n + m, u)
    decreases n
  {
    if n > 0 {
      var r :| Goes(s, p, r) && Alone(r, p, n - 1, t);
      AloneThen(r, p, n - 1, t, m, u);
    }
  }

  lemma OneMore(s: State, p: nat, n: nat, t: State, u: State)
    requires Alone(s, p, n, t) && p < |t.pcs| && |t.buf.ring.data| == PIPESIZE && Do(t, p, Go) == Some(u)
    ensures Alone(s, p, n + 1, u)
  {
    GoStep(t, p, u);
    assert Alone(u, p, 0, u);
    AloneThen(s, p, n, t, 1, u);
  }

  /** One step first. */
  lemma OneFirst(s: State, p: nat, t: State, n: nat, u: State)
    requires p < |s.pcs| && |s.buf.ring.data| == PIPESIZE && Do(s, p, Go) == Some(t) && Alone(t, p, n, u)
    ensures Alone(s, p, n + 1, u)
  {
    GoStep(s, p, t);
  }

  lemma PutsOne(s: State, p: nat, bytes: seq<bv8>, i: nat) returns (t: State)
    requires BufOk(s.buf) && p < |s.pcs| && s.pcs[p] == Writing(bytes, i, WLoop) && i < |bytes| && |s.buf.put| < |s.buf.taken| + PIPESIZE
    ensures Do(s, p, Go) == Some(t) && BufOk(t.buf) && t.buf.put == s.buf.put + [bytes[i]] && t.buf.taken == s.buf.taken
    ensures t == At(s, p, Writing(bytes, i + 1, WLoop)).(buf := t.buf)
  {
    FullAndEmpty(s.buf.ring, s.buf.put, s.buf.taken);
    PutKeepsRing(s.buf.ring, s.buf.put, s.buf.taken, bytes[i]);
    t := At(s, p, Writing(bytes, i + 1, WLoop)).(buf := BufPut(s.buf, bytes[i]));
  }

  lemma TakesOne(s: State, p: nat, n: nat, i: nat) returns (t: State)
    requires BufOk(s.buf) && p < |s.pcs| && s.pcs[p] == Reading(n, i, RLoop) && i < n && |s.buf.taken| < |s.buf.put|
    ensures Do(s, p, Go) == Some(t) && BufOk(t.buf) && t.buf.put == s.buf.put && |t.buf.taken| == |s.buf.taken| + 1
    ensures t == At(s, p, Reading(n, i + 1, RLoop)).(buf := t.buf)
  {
    FullAndEmpty(s.buf.ring, s.buf.put, s.buf.taken);
    TakeKeepsRing(s.buf.ring, s.buf.put, s.buf.taken);
    t := At(s, p, Reading(n, i + 1, RLoop)).(buf := BufTake(s.buf));
  }

  /** The copy loop of pipewrite from byte i to byte m, while there is room. */
  lemma {:induction false} PutsAlone(s: State, p: nat, bytes: seq<bv8>, i: nat, m: nat) returns (b: Buf)
    requires BufOk(s.buf) && p < |s.pcs| && s.pcs[p] == Writing(bytes, i, WLoop) && i <= m <= |bytes|
    requires |s.buf.put| + (m - i) <= |s.buf.taken| + PIPESIZE
    ensures BufOk(b) && b.put == s.buf.put + bytes[i..m] && b.taken == s.buf.taken
    ensures Alone(s, p, m - i, At(s, p, Writing(bytes, m, WLoop)).(buf := b))
    decreases m - i
  {
    if i == m {
      b := s.buf;
      assert s.pcs[p := Writing(bytes, m, WLoop)] == s.pcs;
    } else {
      var t := PutsOne(s, p, bytes, i);
      b := PutsAlone(t, p, bytes, i + 1, m);
      assert bytes[i..m] == [bytes[i]] + bytes[i + 1..m];
      assert t.pcs[p := Writing(bytes, m, WLoop)] == s.pcs[p := Writing(bytes, m, WLoop)];
      OneFirst(s, p, t, m - i - 1, At(s, p, Writing(bytes, m, WLoop)).(buf := b));
    }
  }

  /** The copy loop of piperead from byte i to byte m, while there are bytes. */
  lemma {:induction false} TakesAlone(s: State, p: nat, n: nat, i: nat, m: nat) returns (b: Buf)
    requires BufOk(s.buf) && p < |s.pcs| && s.pcs[p] == Reading(n, i, RLoop) && i <= m <= n
    requires |s.buf.taken| + (m - i) <= |s.buf.put|
    ensures BufOk(b) && b.put == s.buf.put && |b.taken| == |s.buf.taken| + (m - i)
    ensures Alone(s, p, m - i, At(s, p, Reading(n, m, RLoop)).(buf := b))
    decreases m - i
  {
    if i == m {
      b := s.buf;
      assert s.pcs[p := Reading(n, m, RLoop)] == s.pcs;
    } else {
      var t := TakesOne(s, p, n, i);
      b := TakesAlone(t, p, n, i + 1, m);
      assert t.pcs[p := Reading(n, m, RLoop)] == s.pcs[p := Reading(n, m, RLoop)];
      OneFirst(s, p, t, m - i - 1, At(s, p, Reading(n, m, RLoop)).(buf := b));
    }
  }

  /** Nothing but the ring, the lock and the positions has changed. */
  predicate SameFlags(s: State, u: State) {
    |u.pcs| == |s.pcs| && u.readopen == s.readopen && u.writeopen == s.writeopen && u.killed == s.killed
  }

  /** The end of an undisturbed call of p: p is at pc, the lock is free, and the others rest or,
      when p woke them, do not sleep any more. */
  ghost predicate Ended(s: State, u: State, p: nat, pc: Pc, b: Buf, wakes: bool, writers: bool) {
    && SameFlags(s, u) && u.buf == b && u.lock.None? && p < |u.pcs| && u.pcs[p] == pc
    && forall q: nat :: q < |s.pcs| && q != p ==>
         u.pcs[q] == if wakes && writers && WriterAsleep(s.pcs[q]) then Writing(s.pcs[q].bytes, s.pcs[q].i, WWoken)
                     else if wakes && !writers && ReaderAsleep(s.pcs[q]) then Reading(s.pcs[q].n, s.pcs[q].i, RWoken)
                     else s.pcs[q]
  }

  /** Three steps in a row. */
  lemma ThreeAlone(s: State, p: nat, s1: State, s2: State, s3: State) returns (n: nat)
    requires p < |s.pcs| && |s.buf.ring.data| == PIPESIZE && Do(s, p, Go) == Some(s1)
    requires p < |s1.pcs| && |s1.buf.ring.data| == PIPESIZE && Do(s1, p, Go) == Some(s2)
    requires p < |s2.pcs| && |s2.buf.ring.data| == PIPESIZE && Do(s2, p, Go) == Some(s3)
    ensures Alone(s, p, n, s3)
  {
    n := 0;
    assert Alone(s, p, n, s);
    OneMore(s, p, n, s, s1);
    OneMore(s, p, n + 1, s1, s2);
    OneMore(s, p, n + 2, s2, s3);
    n := n + 3;
  }

  /** All bytes are in the ring. */
  lemma WriteReturns(s: State, p: nat, bytes: seq<bv8>) returns (n: nat, u: State)
    requires BufOk(s.buf) && p < |s.pcs| && s.pcs[p] == Writing(bytes, |bytes|, WLoop)
    ensures Alone(s, p, n, u) && Ended(s, u, p, Idle, s.buf, true, false)
  {
    var m := |bytes|;
    var s1 := At(s, p, Writing(bytes, m, WDone));
    var s2 := At(s1.(pcs := WakeReaders(s1.pcs)), p, Writing(bytes, m, WRelease));
    u := Release(s2, p, Idle);
    n := ThreeAlone(s, p, s1, s2, u);
  }

  /** The ring is full before all bytes are in it. */
  lemma WriteSleeps(s: State, p: nat, bytes: seq<bv8>, i: nat) returns (n: nat, u: State)
    requires BufOk(s.buf) && p < |s.pcs| && s.pcs[p] == Writing(bytes, i, WLoop) && i < |bytes|
    requires Full(s.buf.ring) && s.readopen && p !in s.killed
    ensures Alone(s, p, n, u) && Ended(s, u, p, Writing(bytes, i, WAsleep), s.buf, true, false)
  {
    var s1 := At(s, p, Writing(bytes, i, WWake));
    var s2 := At(s1.(pcs := WakeReaders(s1.pcs)), p, Writing(bytes, i, WSleep));
    u := Release(s2, p, Writing(bytes, i, WAsleep));
    n := ThreeAlone(s, p, s1, s2, u);
  }

  lemma WriteFails(s: State, p: nat, bytes: seq<bv8>, i: nat) returns (n: nat, u: State)
    requires BufOk(s.buf) && p < |s.pcs| && s.pcs[p] == Writing(bytes, i, WLoop) && i < |bytes|
    requires Full(s.buf.ring) && (!s.readopen || p in s.killed)
    ensures Alone(s, p, n, u) && Ended(s, u, p, Idle, s.buf, false, false)
  {
    var s1 := At(s, p, Writing(bytes, i, WGiveUp)).(gaveUp := true);
    u := Release(s1, p, Idle);
    n := 0;
    assert Alone(s, p, n, s);
    OneMore(s, p, n, s, s1);
    OneMore(s, p, n + 1, s1, u);
    n := n + 2;
  }

  /** What came before the end does not matter to the others. */
  lemma EndedFrom(s: State, t: State, u: State, p: nat, pc: Pc, wakes: bool, writers: bool)
    requires p < |s.pcs| && SameFlags(s, t) && t.pcs == s.pcs[p := t.pcs[p]] && Ended(t, u, p, pc, t.buf, wakes, writers)
    ensures Ended(s, u, p, pc, t.buf, wakes, writers)
  {
  }

  /** The write has the lock and has put all bytes it could. */
  lemma WriteFills(s: State, p: nat, bytes: seq<bv8>) returns (n: nat, m: nat, t: State)
    requires BufOk(s.buf) && p < |s.pcs| && s.pcs[p] == Writing(bytes, 0, WWant) && s.lock.None?
    ensures Alone(s, p, n, t) && m <= |bytes| && BufOk(t.buf) && (m < |bytes| ==> |t.buf.put| == |t.buf.taken| + PIPESIZE)
    ensures t == At(s, p, Writing(bytes, m, WLoop)).(lock := Some(p), buf := t.buf)
    ensures t.buf.put == s.buf.put + bytes[..m] && t.buf.taken == s.buf.taken
  {
    var room := |s.buf.taken| + PIPESIZE - |s.buf.put|;
    m := if |bytes| <= room then |bytes| else room;
    var s2 := At(s, p, Writing(bytes, 0, WLoop)).(lock := Some(p));
    var b := PutsAlone(s2, p, bytes, 0, m);
    t := At(s2, p, Writing(bytes, m, WLoop)).(buf := b);
    assert bytes[0..m] == bytes[..m];
    assert s2.pcs[p := t.pcs[p]] == s.pcs[p := t.pcs[p]];
    n := m - 0;
    OneFirst(s, p, s2, n, t);
    n := n + 1;
  }

  /** And ends, or sleeps. */
  lemma WriteTail(s: State, p: nat, bytes: seq<bv8>, m: nat) returns (n: nat, u: State)
    requires BufOk(s.buf) && p < |s.pcs| && s.pcs[p] == Writing(bytes, m, WLoop) && m <= |bytes|
    requires m < |bytes| ==> |s.buf.put| == |s.buf.taken| + PIPESIZE
    ensures Alone(s, p, n, u)
    ensures var fails := m < |bytes| && (!s.readopen || p in s.killed);
            Ended(s, u, p, if m == |bytes| || fails then Idle else Writing(bytes, m, WAsleep), s.buf, !fails, false)
  {
    FullAndEmpty(s.buf.ring, s.buf.put, s.buf.taken);
    if m == |bytes| {
      n, u := WriteReturns(s, p, bytes);
    } else if !s.readopen || p in s.killed {
      n, u := WriteFails(s, p, bytes, m);
    } else {
      n, u := WriteSleeps(s, p, bytes, m);
    }
  }

  /** What pipewrite does when nobody else moves: it puts as many of its bytes as there is room
      for, in order, and returns if that is all; otherwise it gives up if the read end is closed
      or p is killed, and else sleeps.  Readers are awake unless it gave up. */
  lemma WriteAlone(s: State, p: nat, bytes: seq<bv8>) returns (n: nat, u: State, m: nat)
    requires BufOk(s.buf) && p < |s.pcs| && s.pcs[p].Idle? && s.lock.None?
    ensures Do(s, p, CallWrite(bytes)).Some? && Alone(Do(s, p, CallWrite(bytes)).value, p, n, u)
    ensures m <= |bytes| && u.buf.put == s.buf.put + bytes[..m] && u.buf.taken == s.buf.taken
    ensures m < |bytes| ==> |u.buf.put| == |u.buf.taken| + PIPESIZE
    ensures var fails := m < |bytes| && (!s.readopen || p in s.killed);
            Ended(s, u, p, if m == |bytes| || fails then Idle else Writing(bytes, m, WAsleep), u.buf, !fails, false)
  {
    var s1 := At(s, p, Writing(bytes, 0, WWant));
    assert Do(s, p, CallWrite(bytes)) == Some(s1);
    var k, t;
    k, m, t := WriteFills(s1, p, bytes);
    n, u := WriteTail(t, p, bytes, m);
    AloneThen(s1, p, k, t, n, u);
    var fails := m < |bytes| && (!s.readopen || p in s.killed);
    EndedFrom(s, t, u, p, if m == |bytes| || fails then Idle else Writing(bytes, m, WAsleep), !fails, false);
    n := k + n;
  }

  /** The read has taken all it can, or all it wants. */
  lemma ReadReturns(s: State, p: nat, n: nat, i: nat) returns (k: nat, u: State)
    requires BufOk(s.buf) && p < |s.pcs| && s.pcs[p] == Reading(n, i, RLoop) && (i == n || s.buf.taken == s.buf.put)
    ensures Alone(s, p, k, u) && Ended(s, u, p, Idle, s.buf, true, true)
  {
    FullAndEmpty(s.buf.ring, s.buf.put, s.buf.taken);
    var s1 := At(s, p, Reading(n, i, RDone));
    var s2 := At(s1.(pcs := WakeWriters(s1.pcs)), p, Reading(n, i, RRelease));
    u := Release(s2, p, Idle);
    k := ThreeAlone(s, p, s1, s2, u);
  }

  /** Nothing to read and somebody may still write. */
  lemma ReadWaits(s: State, p: nat, n: nat) returns (k: nat, u: State)
    requires BufOk(s.buf) && p < |s.pcs| && s.pcs[p] == Reading(n, 0, RWant) && s.lock.None? && s.buf.taken == s.buf.put && s.writeopen
    ensures Alone(s, p, k, u) && Ended(s, u, p, if p in s.killed then Idle else Reading(n, 0, RAsleep), s.buf, false, true)
  {
    FullAndEmpty(s.buf.ring, s.buf.put, s.buf.taken);
    var s1 := At(s, p, Reading(n, 0, RTest)).(lock := Some(p));
    var s2 := At(s1, p, Reading(n, 0, if p in s.killed then RGiveUp else RSleep));
    u := Release(s2, p, if p in s.killed then Idle else Reading(n, 0, RAsleep));
    k := ThreeAlone(s, p, s1, s2, u);
  }

  /** The read has the lock and has taken all bytes it could. */
  lemma ReadDrains(s: State, p: nat, n: nat) returns (k: nat, m: nat, t: State)
    requires BufOk(s.buf) && p < |s.pcs| && s.pcs[p] == Reading(n, 0, RWant) && s.lock.None? && !(s.buf.taken == s.buf.put && s.writeopen)
    ensures Alone(s, p, k, t) && m <= n && BufOk(t.buf) && (m < n ==> t.buf.taken == t.buf.put)
    ensures t == At(s, p, Reading(n, m, RLoop)).(lock := Some(p), buf := t.buf)
    ensures t.buf.put == s.buf.put && |t.buf.taken| == |s.buf.taken| + m
  {
    FullAndEmpty(s.buf.ring, s.buf.put, s.buf.taken);
    var there := |s.buf.put| - |s.buf.taken|;
    m := if n <= there then n else there;
    var s1 := At(s, p, Reading(n, 0, RTest)).(lock := Some(p));
    var s2 := At(s1, p, Reading(n, 0, RLoop));
    var b := TakesAlone(s2, p, n, 0, m);
    t := At(s2, p, Reading(n, m, RLoop)).(buf := b);
    assert s2.pcs[p := t.pcs[p]] == s.pcs[p := t.pcs[p]];
    k := 0;
    assert Alone(s, p, k, s);
    OneMore(s, p, k, s, s1);
    OneMore(s, p, k + 1, s1, s2);
    AloneThen(s, p, k + 2, s2, m - 0, t);
    k := k + 2 + (m - 0);
  }

  /** What piperead does when nobody else moves: with an empty ring and the write end open it
      sleeps, or gives up if p is killed, and nothing changes; otherwise it takes the oldest bytes,
      n or as many as there are, and returns with all writers awake. */
  lemma ReadAlone(s: State, p: nat, n: nat) returns (k: nat, u: State, m: nat)
    requires BufOk(s.buf) && p < |s.pcs| && s.pcs[p].Idle? && s.lock.None?
    ensures Do(s, p, CallRead(n)).Some? && Alone(Do(s, p, CallRead(n)).value, p, k, u)
    ensures m <= n && u.buf.put == s.buf.put && |s.buf.taken| + m <= |s.buf.put| && u.buf.taken == s.buf.put[..|s.buf.taken| + m]
    ensures m < n ==> u.buf.taken == u.buf.put
    ensures var waits := s.buf.taken == s.buf.put && s.writeopen;
            Ended(s, u, p, if waits && p !in s.killed then Reading(n, 0, RAsleep) else Idle, u.buf, !waits, true)
  {
    var s1 := At(s, p, Reading(n, 0, RWant));
    assert Do(s, p, CallRead(n)) == Some(s1);
    if s.buf.taken == s.buf.put && s.writeopen {
      k, u := ReadWaits(s1, p, n);
      m := 0;
      EndedFrom(s, s1, u, p, if p !in s.killed then Reading(n, 0, RAsleep) else Idle, false, true);
    } else {
      var j, l, t;
      j, m, t := ReadDrains(s1, p, n);
      l, u := ReadReturns(t, p, n, m);
      AloneThen(s1, p, j, t, l, u);
      k := j + l;
      EndedFrom(s, t, u, p, Idle, true, true);
    }
  }

  /** What pipeclose does when nobody else moves: its end is closed, the other end is as before,
      and nobody sleeps any more who waited for this end. */
  lemma CloseAlone(s: State, p: nat, writable: bool) returns (k: nat, u: State)
    requires p < |s.pcs| && |s.buf.ring.data| == PIPESIZE && s.pcs[p].Idle? && s.lock.None?
    ensures Do(s, p, CallClose(writable)).Some? && Alone(Do(s, p, CallClose(writable)).value, p, k, u)
    ensures !Open(u, writable) && Open(u, !writable) == Open(s, !writable)
    ensures u.buf == s.buf && u.lock.None? && u.killed == s.killed && |u.pcs| == |s.pcs| && u.pcs[p].Idle?
    ensures forall q: nat :: q < |s.pcs| && q != p ==>
              u.pcs[q] == if !writable && WriterAsleep(s.pcs[q]) then Writing(s.pcs[q].bytes, s.pcs[q].i, WWoken)
                          else if writable && ReaderAsleep(s.pcs[q]) then Reading(s.pcs[q].n, s.pcs[q].i, RWoken)
                          else s.pcs[q]
  {
    var t := At(s, p, Closing(writable, CWant));
    var s1 := At(t, p, Closing(writable, CSet)).(lock := Some(p));
    var s2 := At(if writable then s1.(writeopen := false) else s1.(readopen := false), p, Closing(writable, CWake));
    var s3 := At(s2.(pcs := if writable then WakeReaders(s2.pcs) else WakeWriters(s2.pcs)), p, Closing(writable, CRelease));
    u := Release(s3, p, Idle);
    k := ThreeAlone(t, p, s1, s2, s3);
    OneMore(t, p, k, s3, u);
    k := k + 1;
  }
}

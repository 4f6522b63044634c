/**
 The per-CPU page allocator (kalloc.c of the third lab) as interleaved steps of any number of
 processes: free lists linked through the first word of each free page, one lock per list.

 `place` is a history: where each page is.  `lists` is a history: the pages of each list, first
 one first.  A page's depth in its list is counted from the end, where nothing changes.
 */
module KallocSteps {
  import opened Common

  datatype Place = InList(i: nat, depth: nat) | Own(p: nat)

  datatype APc = AWant | ARead | ASet(r: nat) | ARel(r: nat)
  datatype FPc = FWant | FLink | FSet | FRel

  /** `cpu` is the CPU id that was read, `j` the list being looked at. */
  datatype Pc = Idle | Alloc(cpu: nat, j: nat, a: APc) | Free(page: nat, j: nat, f: FPc)

  datatype State = State(heads: seq<nat>, word: map<nat, nat>, locks: seq<Option<nat>>, pcs: seq<Pc>,
                         lists: seq<seq<nat>>, place: map<nat, Place>)

  /** Calls name the CPU id that cpuid returns.  Scribble is an owner writing into its page, Give an
      owner handing it on, as an exiting process does to the parent that will free its memory. */
  datatype Action = Go | CallAlloc(cpu: nat) | CallFree(page: nat, cpu: nat) | Scribble(page: nat, w: nat) | Give(page: nat, q: nat)

  function At(s: State, p: nat, pc: Pc): State
    requires p < |s.pcs|
  {
    s.(pcs := s.pcs[p := pc])
  }

  function Acquire(s: State, p: nat, j: nat, pc: Pc): Option<State>
    requires p < |s.pcs| && j < |s.locks|
  {
    if s.locks[j].None? then Some(At(s, p, pc).(locks := s.locks[j := Some(p)])) else None
  }

  function Release(s: State, p: nat, j: nat, pc: Pc): State
    requires p < |s.pcs| && j < |s.locks|
  {
    At(s, p, pc).(locks := s.locks[j := None])
  }

  /** The next list of kalloc's loop after list j, or None when there is no other. */
  function NextList(cpu: nat, j: nat, n: nat): Option<nat> {
    var k := if j == cpu then 0 else j + 1;
    var k' := if k == cpu then k + 1 else k;
    if k' < n then Some(k') else None
  }

  /** One step of kalloc (kalloc.c:75-104). */
  function DoAlloc(s: State, p: nat, cpu: nat, j: nat, a: APc): Option<State>
    requires p < |s.pcs| && j < |s.locks| && |s.locks| == |s.heads| == |s.lists|
  {
    match a
    case AWant => Acquire(s, p, j, Alloc(cpu, j, ARead))
    case ARead =>
      var r := s.heads[j];
      Some(At(s, p, Alloc(cpu, j, if r != 0 then ASet(r) else ARel(0))))
    case ASet(r) =>
      if r !in s.word || |s.lists[j]| == 0 then None
      else
        Some(At(s, p, Alloc(cpu, j, ARel(r))).(heads := s.heads[j := s.word[r]], lists := s.lists[j := s.lists[j][1..]],
                                               place := s.place[r := Own(p)]))
    case ARel(r) =>
      Some(Release(s, p, j, if r != 0 || NextList(cpu, j, |s.locks|).None? then Idle else Alloc(cpu, NextList(cpu, j, |s.locks|).value, AWant)))
  }

  /** One step of kfree (kalloc.c:51-69). */
  function DoFree(s: State, p: nat, page: nat, j: nat, f: FPc): Option<State>
    requires p < |s.pcs| && j < |s.locks| && |s.locks| == |s.heads| == |s.lists|
  {
    match f
    case FWant => Acquire(s, p, j, Free(page, j, FLink))
    case FLink => Some(At(s, p, Free(page, j, FSet)).(word := s.word[page := s.heads[j]]))
    case FSet =>
      Some(At(s, p, Free(page, j, FRel)).(heads := s.heads[j := page], lists := s.lists[j := [page] + s.lists[j]],
                                           place := s.place[page := InList(j, |s.lists[j]|)]))
    case FRel => Some(Release(s, p, j, Idle))
  }

  ghost predicate Shape(s: State) {
    && |s.locks| == |s.heads| == |s.lists|
    && forall p: nat :: p < |s.pcs| ==> s.pcs[p].Idle? || s.pcs[p].j < |s.locks|
  }

  ghost function Do(s: State, p: nat, a: Action): Option<State>
    requires p < |s.pcs| && Shape(s)
  {
    match a
    case CallAlloc(cpu) => if s.pcs[p].Idle? && cpu < |s.locks| then Some(At(s, p, Alloc(cpu, cpu, AWant))) else None
    case CallFree(page, cpu) =>
      if s.pcs[p].Idle? && cpu < |s.locks| && page in s.place && s.place[page] == Own(p) then Some(At(s, p, Free(page, cpu, FWant))) else None
    case Scribble(page, w) =>
      if s.pcs[p].Idle? && page in s.place && s.place[page] == Own(p) then Some(s.(word := s.word[page := w])) else None
    case Give(page, q) =>
      if s.pcs[p].Idle? && q < |s.pcs| && page in s.place && s.place[page] == Own(p) then Some(s.(place := s.place[page := Own(q)])) else None
    case Go =>
      match s.pcs[p]
      case Idle => None
      case Alloc(cpu, j, a) => DoAlloc(s, p, cpu, j, a)
      case Free(page, j, f) => DoFree(s, p, page, j, f)
  }

  // ---------------------------------------------------------------------------------------
  // Invariant
  // ---------------------------------------------------------------------------------------

  predicate HoldsLock(pc: Pc) {
    match pc
    case Idle => false
    case Alloc(_, _, a) => !a.AWant?
    case Free(_, _, f) => !f.FWant?
  }

  ghost predicate LocksOk(s: State)
    requires Shape(s)
  {
    && (forall p: nat :: p < |s.pcs| && HoldsLock(s.pcs[p]) ==> s.locks[s.pcs[p].j] == Some(p))
    && (forall i: nat :: i < |s.locks| && s.locks[i].Some? ==>
          s.locks[i].value < |s.pcs| && HoldsLock(s.pcs[s.locks[i].value]) && s.pcs[s.locks[i].value].j == i)
  }

  /** The list that starts at `head` and is linked through `word` is l. */
  ghost predicate Chain(word: map<nat, nat>, head: nat, l: seq<nat>) {
    && head == (if |l| == 0 then 0 else l[0])
    && forall k: nat :: k < |l| ==> LinkOk(word, l, k)
  }

  predicate LinkOk(word: map<nat, nat>, l: seq<nat>, k: nat)
    requires k < |l|
  {
    l[k] != 0 && l[k] in word && word[l[k]] == if k + 1 < |l| then l[k + 1] else 0
  }

  /** The pages of list i are placed there, each at its depth. */
  ghost predicate Placed(place: map<nat, Place>, i: nat, l: seq<nat>) {
    forall k: nat :: k < |l| ==> l[k] in place && place[l[k]] == InList(i, |l| - 1 - k)
  }

  ghost predicate ListsOk(s: State) {
    && |s.heads| == |s.lists|
    && (forall i: nat :: i < |s.lists| ==> Chain(s.word, s.heads[i], s.lists[i]) && Placed(s.place, i, s.lists[i]))
  }

  /** A page that is placed in a list is there. */
  predicate PlaceOk(s: State, x: nat)
    requires x in s.place
  {
    s.place[x].InList? ==>
      var i, d := s.place[x].i, s.place[x].depth; i < |s.lists| && d < |s.lists[i]| && s.lists[i][|s.lists[i]| - 1 - d] == x
  }

  ghost predicate PlacesOk(s: State) {
    forall x: nat :: x in s.place ==> x != 0 && x in s.word && PlaceOk(s, x)
  }

  /** What a process inside its critical section knows. */
  predicate Knows(s: State, p: nat, pc: Pc) {
    match pc
    case Idle => true
    case Alloc(_, j, a) =>
      && (a.ASet? ==> j < |s.lists| && |s.lists[j]| > 0 && s.lists[j][0] == a.r && a.r != 0)
      && (a.ARel? && a.r != 0 ==> a.r in s.place && s.place[a.r] == Own(p))
    case Free(page, j, f) =>
      && (f.FRel? || (page in s.place && s.place[page] == Own(p)))
      && (f.FSet? ==> j < |s.heads| && page in s.word && s.word[page] == s.heads[j])
      && (f.FRel? ==> j < |s.lists| && |s.lists[j]| > 0 && s.lists[j][0] == page)
  }

  ghost predicate Inv(s: State) {
    && Shape(s) && LocksOk(s) && ListsOk(s) && PlacesOk(s)
    && forall p: nat :: p < |s.pcs| ==> Knows(s, p, s.pcs[p])
  }

  // ---------------------------------------------------------------------------------------
  // Lists
  // ---------------------------------------------------------------------------------------

  /** A word written into a page that is in no list changes no list. */
  lemma WordElsewhere(s: State, x: nat, w: nat)
    requires ListsOk(s) && x in s.place && s.place[x].Own?
    ensures ListsOk(s.(word := s.word[x := w]))
  {
    var s' := s.(word := s.word[x := w]);
    forall i: nat | i < |s.lists| ensures Chain(s'.word, s.heads[i], s.lists[i]) && Placed(s.place, i, s.lists[i]) {
      assert Chain(s.word, s.heads[i], s.lists[i]) && Placed(s.place, i, s.lists[i]);
      WriteKeepsChain(s.word, s.heads[i], s.lists[i], x, w);
    }
  }

  /** The state with the first page of list j taken out by p. */
  function Popped(s: State, j: nat, p: nat): State
    requires j < |s.lists| && |s.heads| == |s.lists| && |s.lists[j]| > 0 && s.lists[j][0] in s.word
  {
    var r := s.lists[j][0];
    s.(heads := s.heads[j := s.word[r]], lists := s.lists[j := s.lists[j][1..]], place := s.place[r := Own(p)])
  }

  lemma PopKeepsLists(s: State, j: nat, p: nat)
    requires ListsOk(s) && PlacesOk(s) && j < |s.lists| && |s.lists[j]| > 0
    ensures s.lists[j][0] in s.word && ListsOk(Popped(s, j, p))
  {
    assert Chain(s.word, s.heads[j], s.lists[j]) && Placed(s.place, j, s.lists[j]);
    PopKeepsChain(s.word, s.heads[j], s.lists[j]);
    var r := s.lists[j][0];
    var s' := Popped(s, j, p);
    forall i: nat | i < |s'.lists| ensures Chain(s'.word, s'.heads[i], s'.lists[i]) && Placed(s'.place, i, s'.lists[i]) {
      assert Chain(s.word, s.heads[i], s.lists[i]) && Placed(s.place, i, s.lists[i]);
      if i == j {
        PopKeepsChain(s.word, s.heads[j], s.lists[j]);
      }
    }
  }

  lemma PopKeepsPlaces(s: State, j: nat, p: nat)
    requires ListsOk(s) && PlacesOk(s) && j < |s.lists| && |s.lists[j]| > 0 && s.lists[j][0] in s.word
    ensures PlacesOk(Popped(s, j, p))
  {
    var s' := Popped(s, j, p);
    assert Chain(s.word, s.heads[j], s.lists[j]) && Placed(s.place, j, s.lists[j]);
    forall x: nat | x in s'.place ensures x != 0 && x in s'.word && PlaceOk(s', x) {
      if x != s.lists[j][0] {
        assert PlaceOk(s, x);
      }
    }
  }

  /** The state with page x put first in list j. */
  function Pushed(s: State, j: nat, x: nat): State
    requires j < |s.lists| && |s.heads| == |s.lists|
  {
    s.(heads := s.heads[j := x], lists := s.lists[j := [x] + s.lists[j]], place := s.place[x := InList(j, |s.lists[j]|)])
  }

  lemma PushKeepsLists(s: State, j: nat, x: nat)
    requires ListsOk(s) && PlacesOk(s) && j < |s.lists| && x in s.place && s.place[x].Own? && x in s.word && s.word[x] == s.heads[j]
    ensures ListsOk(Pushed(s, j, x))
  {
    var s' := Pushed(s, j, x);
    forall i: nat | i < |s'.lists| ensures Chain(s'.word, s'.heads[i], s'.lists[i]) && Placed(s'.place, i, s'.lists[i]) {
      assert Chain(s.word, s.heads[i], s.lists[i]) && Placed(s.place, i, s.lists[i]);
      if i == j {
        PushKeepsChain(s.word, s.heads[j], s.lists[j], x);
      }
    }
  }

  lemma PushKeepsChain(word: map<nat, nat>, head: nat, l: seq<nat>, x: nat)
    requires Chain(word, head, l) && x != 0 && x in word && word[x] == head
    ensures Chain(word, x, [x] + l)
  {
    var l' := [x] + l;
    forall k: nat | k < |l'| ensures LinkOk(word, l', k) {
      if k > 0 {
        assert LinkOk(word, l, k - 1);
      }
    }
  }

  lemma PopKeepsChain(word: map<nat, nat>, head: nat, l: seq<nat>)
    requires Chain(word, head, l) && |l| > 0
    ensures l[0] in word && Chain(word, word[l[0]], l[1..])
  {
    assert LinkOk(word, l, 0);
    forall k: nat | k < |l[1..]| ensures LinkOk(word, l[1..], k) {
      assert LinkOk(word, l, k + 1);
    }
  }

  lemma WriteKeepsChain(word: map<nat, nat>, head: nat, l: seq<nat>, x: nat, w: nat)
    requires Chain(word, head, l) && forall k: nat :: k < |l| ==> l[k] != x
    ensures Chain(word[x := w], head, l)
  {
    var word' := word[x := w];
    forall k: nat | k < |l| ensures LinkOk(word', l, k) {
      assert LinkOk(word, l, k);
    }
  }

  lemma PushKeepsPlaces(s: State, j: nat, x: nat)
    requires PlacesOk(s) && j < |s.lists| && |s.heads| == |s.lists| && x in s.place
    ensures PlacesOk(Pushed(s, j, x))
  {
    var s' := Pushed(s, j, x);
    forall y: nat | y in s'.place ensures y != 0 && y in s'.word && PlaceOk(s', y) {
      if y != x {
        assert PlaceOk(s, y);
      }
    }
  }

  // ---------------------------------------------------------------------------------------
  // Steps
  // ---------------------------------------------------------------------------------------

  /** Two processes are never inside the same critical section. */
  lemma Exclusive(s: State, p: nat, q: nat)
    requires Shape(s) && LocksOk(s) && p < |s.pcs| && q < |s.pcs| && p != q && HoldsLock(s.pcs[p]) && HoldsLock(s.pcs[q])
    ensures s.pcs[p].j != s.pcs[q].j
  {
  }

  /** How a step of p moves locks: not at all, or p takes a free one, or p gives up its own. */
  predicate LockMove(s: State, s': State, p: nat)
    requires p < |s.pcs|
  {
    && |s'.locks| == |s.locks| && |s'.pcs| == |s.pcs| && s'.pcs == s.pcs[p := s'.pcs[p]]
    && var pc, pc' := s.pcs[p], s'.pcs[p];
       && (pc'.Idle? || pc'.j < |s.locks|)
       && ( || (s'.locks == s.locks && HoldsLock(pc) == HoldsLock(pc') && (HoldsLock(pc) ==> pc'.j == pc.j))
            || (!HoldsLock(pc) && HoldsLock(pc') && s.locks[pc'.j].None? && s'.locks == s.locks[pc'.j := Some(p)])
            || (HoldsLock(pc) && !HoldsLock(pc') && pc.j < |s.locks| && s'.locks == s.locks[pc.j := None]))
  }

  lemma AllocMoves(s: State, p: nat, cpu: nat, j: nat, a: APc, s': State)
    requires p < |s.pcs| && Shape(s) && s.pcs[p] == Alloc(cpu, j, a) && DoAlloc(s, p, cpu, j, a) == Some(s')
    ensures LockMove(s, s', p) && |s'.heads| == |s.heads| && |s'.lists| == |s.lists|
  {
    match a
    case AWant =>
    case ARead =>
    case ASet(_) =>
    case ARel(_) =>
  }

  lemma FreeMoves(s: State, p: nat, page: nat, j: nat, f: FPc, s': State)
    requires p < |s.pcs| && Shape(s) && s.pcs[p] == Free(page, j, f) && DoFree(s, p, page, j, f) == Some(s')
    ensures LockMove(s, s', p) && |s'.heads| == |s.heads| && |s'.lists| == |s.lists|
  {
    match f
    case FWant =>
    case FLink =>
    case FSet =>
    case FRel =>
  }

  lemma LocksKept(s: State, s': State, p: nat)
    requires p < |s.pcs| && Shape(s) && LocksOk(s) && LockMove(s, s', p) && |s'.heads| == |s.heads| && |s'.lists| == |s.lists|
    ensures Shape(s') && LocksOk(s')
  {
  }

  lemma CallMoves(s: State, p: nat, a: Action, s': State)
    requires p < |s.pcs| && Shape(s) && !a.Go? && Do(s, p, a) == Some(s')
    ensures LockMove(s, s', p) && |s'.heads| == |s.heads| && |s'.lists| == |s.lists|
  {
    if a.Scribble? || a.Give? {
      assert s'.pcs == s.pcs[p := s.pcs[p]];
    }
  }

  lemma StepMoves(s: State, p: nat, a: Action, s': State)
    requires p < |s.pcs| && Shape(s) && Do(s, p, a) == Some(s')
    ensures LockMove(s, s', p) && |s'.heads| == |s.heads| && |s'.lists| == |s.lists|
  {
    if !a.Go? {
      CallMoves(s, p, a, s');
    } else if s.pcs[p].Alloc? {
      AllocMoves(s, p, s.pcs[p].cpu, s.pcs[p].j, s.pcs[p].a, s');
    } else if s.pcs[p].Free? {
      FreeMoves(s, p, s.pcs[p].page, s.pcs[p].j, s.pcs[p].f, s');
    }
  }

  lemma AllocKeepsLists(s: State, p: nat, cpu: nat, j: nat, a: APc, s': State)
    requires p < |s.pcs| && Shape(s) && ListsOk(s) && PlacesOk(s) && Knows(s, p, Alloc(cpu, j, a)) && j < |s.locks|
    requires DoAlloc(s, p, cpu, j, a) == Some(s')
    ensures ListsOk(s') && PlacesOk(s') && s'.place.Keys == s.place.Keys
  {
    if a.ASet? {
      PopKeepsLists(s, j, p);
      PopKeepsPlaces(s, j, p);
      assert Placed(s.place, j, s.lists[j]);
      assert s'.heads == Popped(s, j, p).heads && s'.lists == Popped(s, j, p).lists && s'.place == Popped(s, j, p).place;
      SameLists(Popped(s, j, p), s');
    } else {
      SameLists(s, s');
    }
  }

  lemma FreeKeepsLists(s: State, p: nat, page: nat, j: nat, f: FPc, s': State)
    requires p < |s.pcs| && Shape(s) && ListsOk(s) && PlacesOk(s) && Knows(s, p, Free(page, j, f)) && j < |s.locks|
    requires DoFree(s, p, page, j, f) == Some(s')
    ensures ListsOk(s') && PlacesOk(s') && s'.place.Keys == s.place.Keys
  {
    if f.FLink? {
      WordElsewhere(s, page, s.heads[j]);
      WordKeepsPlaces(s, page, s.heads[j]);
      SameLists(s.(word := s.word[page := s.heads[j]]), s');
    } else if f.FSet? {
      PushKeepsLists(s, j, page);
      PushKeepsPlaces(s, j, page);
      SameLists(Pushed(s, j, page), s');
    } else {
      SameLists(s, s');
    }
  }

  lemma WordKeepsPlaces(s: State, x: nat, w: nat)
    requires PlacesOk(s)
    ensures PlacesOk(s.(word := s.word[x := w]))
  {
    var s' := s.(word := s.word[x := w]);
    forall y: nat | y in s'.place ensures y != 0 && y in s'.word && PlaceOk(s', y) {
      assert PlaceOk(s, y);
    }
  }

  /** Nor does a change of owner. */
  lemma GiveKeepsLists(s: State, x: nat, q: nat)
    requires ListsOk(s) && PlacesOk(s) && x in s.place && s.place[x].Own?
    ensures ListsOk(s.(place := s.place[x := Own(q)])) && PlacesOk(s.(place := s.place[x := Own(q)]))
  {
    var s' := s.(place := s.place[x := Own(q)]);
    forall i: nat | i < |s.lists| ensures Chain(s.word, s.heads[i], s.lists[i]) && Placed(s'.place, i, s.lists[i]) {
      assert Chain(s.word, s.heads[i], s.lists[i]) && Placed(s.place, i, s.lists[i]);
    }
    forall y: nat | y in s'.place ensures y != 0 && y in s'.word && PlaceOk(s', y) {
      assert PlaceOk(s, y);
    }
  }

  /** Program counters and locks do not matter to the lists. */
  lemma SameLists(s: State, s': State)
    requires ListsOk(s) && PlacesOk(s) && s'.heads == s.heads && s'.word == s.word && s'.lists == s.lists && s'.place == s.place
    ensures ListsOk(s') && PlacesOk(s')
  {
    forall y: nat | y in s'.place ensures y != 0 && y in s'.word && PlaceOk(s', y) {
      assert PlaceOk(s, y);
    }
  }

  lemma StepKeepsLists(s: State, p: nat, a: Action, s': State)
    requires p < |s.pcs| && Shape(s) && ListsOk(s) && PlacesOk(s) && Knows(s, p, s.pcs[p]) && Do(s, p, a) == Some(s')
    ensures ListsOk(s') && PlacesOk(s') && s'.place.Keys == s.place.Keys
  {
    if a.Scribble? {
      WordElsewhere(s, a.page, a.w);
      WordKeepsPlaces(s, a.page, a.w);
    } else if a.Give? {
      GiveKeepsLists(s, a.page, a.q);
    } else if !a.Go? {
      SameLists(s, s');
    } else if s.pcs[p].Alloc? {
      AllocKeepsLists(s, p, s.pcs[p].cpu, s.pcs[p].j, s.pcs[p].a, s');
    } else if s.pcs[p].Free? {
      FreeKeepsLists(s, p, s.pcs[p].page, s.pcs[p].j, s.pcs[p].f, s');
    }
  }

  /** A step of p changes lists it has locked and pages it owns, or takes from such a list. */
  ghost predicate OnlyOwn(s: State, s': State, p: nat)
    requires p < |s.pcs| && Shape(s)
  {
    && |s'.lists| == |s.lists| && |s'.heads| == |s.heads|
    && (forall i: nat :: i < |s.lists| && !(HoldsLock(s.pcs[p]) && s.pcs[p].j == i) ==> s'.lists[i] == s.lists[i] && s'.heads[i] == s.heads[i])
    && (forall x: nat :: x in s.place && s.place[x].Own? && s.place[x].p != p ==>
          x in s'.place && s'.place[x] == s.place[x] && (x in s.word ==> x in s'.word && s'.word[x] == s.word[x]))
  }

  lemma StepIsOwn(s: State, p: nat, a: Action, s': State)
    requires p < |s.pcs| && Shape(s) && ListsOk(s) && Knows(s, p, s.pcs[p]) && Do(s, p, a) == Some(s')
    ensures OnlyOwn(s, s', p)
  {
    if a.Go? && s.pcs[p].Alloc? && s.pcs[p].a.ASet? {
      assert Placed(s.place, s.pcs[p].j, s.lists[s.pcs[p].j]);
    }
  }

  lemma OthersKnow(s: State, s': State, p: nat, q: nat)
    requires Shape(s) && LocksOk(s) && p < |s.pcs| && q < |s.pcs| && p != q && OnlyOwn(s, s', p) && Knows(s, q, s.pcs[q])
    ensures Knows(s', q, s.pcs[q])
  {
    if HoldsLock(s.pcs[p]) && HoldsLock(s.pcs[q]) {
      Exclusive(s, p, q);
    }
  }

  lemma StepIsKnown(s: State, p: nat, a: Action, s': State)
    requires p < |s.pcs| && Shape(s) && ListsOk(s) && Knows(s, p, s.pcs[p]) && Do(s, p, a) == Some(s') && p < |s'.pcs|
    ensures Knows(s', p, s'.pcs[p])
  {
    if a.Go? && s.pcs[p].Alloc? && s.pcs[p].a.ARead? {
      assert Chain(s.word, s.heads[s.pcs[p].j], s.lists[s.pcs[p].j]);
    }
  }

  lemma StepKeepsInv(s: State, p: nat, a: Action, s': State)
    requires p < |s.pcs| && Inv(s) && Do(s, p, a) == Some(s')
    ensures Inv(s') && s'.place.Keys == s.place.Keys && |s'.pcs| == |s.pcs| && |s'.lists| == |s.lists|
  {
    assert Knows(s, p, s.pcs[p]);
    StepMoves(s, p, a, s');
    LocksKept(s, s', p);
    StepKeepsLists(s, p, a, s');
    StepIsOwn(s, p, a, s');
    forall q: nat | q < |s'.pcs| ensures Knows(s', q, s'.pcs[q]) {
      if q == p {
        StepIsKnown(s, p, a, s');
      } else {
        assert Knows(s, q, s.pcs[q]);
        OthersKnow(s, s', p, q);
      }
    }
  }

  // ---------------------------------------------------------------------------------------
  // Runs
  // ---------------------------------------------------------------------------------------

  datatype Move = Move(p: nat, a: Action)

  /** Before freerange: every list is empty, nobody is inside, and the process that boots owns all
      pages; freerange is that process freeing them one by one. */
  ghost predicate Init(s: State) {
    && |s.locks| == |s.heads| == |s.lists| && |s.pcs| > 0
    && (forall p: nat :: p < |s.pcs| ==> s.pcs[p].Idle?)
    && (forall i: nat :: i < |s.lists| ==> s.lists[i] == [] && s.heads[i] == 0 && s.locks[i].None?)
    && (forall x: nat :: x in s.place ==> x != 0 && x in s.word && s.place[x] == Own(0))
  }

  lemma InitHasInv(s: State)
    requires Init(s)
    ensures Inv(s)
  {
    forall i: nat | i < |s.lists| ensures Chain(s.word, s.heads[i], s.lists[i]) && Placed(s.place, i, s.lists[i]) {
      assert s.lists[i] == [];
    }
  }

  /** Move k leads from state k to the next. */
  ghost predicate StepAt(run: seq<State>, moves: seq<Move>, k: nat)
    requires k < |moves| < |run|
  {
    Shape(run[k]) && moves[k].p < |run[k].pcs| && Do(run[k], moves[k].p, moves[k].a) == Some(run[k + 1])
  }

  ghost predicate IsRun(run: seq<State>, moves: seq<Move>) {
    && |run| == |moves| + 1 && Init(run[0])
    && forall k: nat :: k < |moves| ==> StepAt(run, moves, k)
  }

  lemma {:induction false} RunKeepsInv(run: seq<State>, moves: seq<Move>, k: nat)
    requires IsRun(run, moves) && k < |run|
    ensures Inv(run[k]) && run[k].place.Keys == run[0].place.Keys && |run[k].lists| == |run[0].lists|
  {
    if k == 0 {
      InitHasInv(run[0]);
    } else {
      RunKeepsInv(run, moves, k - 1);
      assert StepAt(run, moves, k - 1);
      StepKeepsInv(run[k - 1], moves[k - 1].p, moves[k - 1].a, run[k]);
    }
  }

  /** Page x is at position k of list i. */
  predicate Holds(s: State, i: nat, k: nat, x: nat) {
    i < |s.lists| && k < |s.lists[i]| && s.lists[i][k] == x
  }

  /** In every run each page is in exactly one place: it has an owner and is in no list, or it is
      at one position of one list and has no owner.  No page is ever lost. */
  lemma EachPageOnce(run: seq<State>, moves: seq<Move>, n: nat, x: nat)
    requires IsRun(run, moves) && n < |run| && x in run[0].place
    ensures var s := run[n];
            && x in s.place
            && (s.place[x].Own? <==> forall i: nat, k: nat :: !Holds(s, i, k, x))
            && (forall i: nat, k: nat, j: nat, l: nat :: Holds(s, i, k, x) && Holds(s, j, l, x) ==> i == j && k == l)
  {
    RunKeepsInv(run, moves, n);
    var s := run[n];
    assert x in s.place.Keys && PlaceOk(s, x);
    forall i: nat, k: nat | Holds(s, i, k, x) ensures s.place[x] == InList(i, |s.lists[i]| - 1 - k) {
      assert Placed(s.place, i, s.lists[i]);
    }
    if s.place[x].InList? {
      assert Holds(s, s.place[x].i, |s.lists[s.place[x].i]| - 1 - s.place[x].depth, x);
    }
  }

  /** A page that kalloc returns had no owner before, and is its caller's from then on. */
  lemma AllocatedOnce(s: State, p: nat, s': State, r: nat)
    requires Inv(s) && p < |s.pcs| && s.pcs[p].Alloc? && s.pcs[p].a == ASet(r) && Do(s, p, Go) == Some(s')
    ensures r in s.place && s.place[r].InList? && r in s'.place && s'.place[r] == Own(p)
  {
    assert Knows(s, p, s.pcs[p]);
    assert Placed(s.place, s.pcs[p].j, s.lists[s.pcs[p].j]);
  }

  /** Every process that is not idle and not waiting for a held lock can go on: nothing gets stuck. */
  lemma NobodyIsStuck(s: State, p: nat)
    requires Inv(s) && p < |s.pcs| && !s.pcs[p].Idle? && (!HoldsLock(s.pcs[p]) ==> s.locks[s.pcs[p].j].None?)
    ensures Do(s, p, Go).Some?
  {
    assert Knows(s, p, s.pcs[p]);
    var pc := s.pcs[p];
    if pc.Alloc? && pc.a.ASet? {
      PopKeepsLists(s, pc.j, p);
    }
  }
}

/**
 Three-level page tables in physical memory (vm.c), and the flat map from page numbers to
 entries that each of them stands for.

 Every allocated physical page carries a history use that says what it is used for; a table
 page's use names its place in its table.  A page has one use, so no two places share a
 table page, within a table or between tables.
 */
module PageTable {
  import opened Common
  import opened Riscv

  type Tables = map<nat, seq<Pte>>

  /** `Frame(t, v)` is the page that backs page v of user table t; `Other` is any other use. */
  datatype Use = Root | Mid(t: nat, i: nat) | Low(t: nat, i: nat, j: nat) | Frame(t: nat, v: nat) | Other

  type Uses = map<nat, Use>

  /** Page v of table t, and what all tables together map. */
  datatype At = At(t: nat, v: nat)
  type Flat = map<At, Pte>

  predicate IsTable(l: Use) {
    l.Root? || l.Mid? || l.Low?
  }

  function Entry(tab: Tables, p: nat, i: nat): Pte {
    if p in tab && i < |tab[p]| then tab[p][i] else ZERO
  }

  /** What three table reads find for page v. */
  function PteAt(tab: Tables, t: nat, v: nat): Pte
    requires v < NVPN
  {
    var q := PathOf(v);
    var e2 := Entry(tab, t, q.l2);
    if !e2.v then ZERO
    else
      var e1 := Entry(tab, e2.ppn, q.l1);
      if !e1.v then ZERO else Entry(tab, e1.ppn, q.l0)
  }

  function ChildUse(p: nat, l: Use, i: nat): Use {
    match l
    case Root => Mid(p, i)
    case Mid(t, a) => Low(t, a, i)
    case _ => Other
  }

  /** A valid entry of an inner table points to the table of that place; a valid entry of a
      lowest table maps a page. */
  predicate EntryOk(use: Uses, p: nat, i: nat, e: Pte)
    requires p in use
  {
    e.v ==>
      if use[p].Low? then Leafy(e) && e.ppn != 0
      else !Leafy(e) && !e.u && e.ppn in use && use[e.ppn] == ChildUse(p, use[p], i)
  }

  /** The place a table page's use names really points to it. */
  predicate BackOk(tab: Tables, use: Uses, p: nat)
    requires p in use
  {
    match use[p]
    case Mid(t, i) => i < 512 && t in use && use[t].Root? && Entry(tab, t, i) == Pointer(p)
    case Low(t, i, j) =>
      && i < 512 && j < 512 && t in use && use[t].Root? && Entry(tab, t, i).v
      && Entry(tab, Entry(tab, t, i).ppn, j) == Pointer(p)
    case _ => true
  }

  ghost predicate WellFormed(tab: Tables, use: Uses) {
    && (forall p: nat :: p in tab <==> p in use && IsTable(use[p]))
    && (forall p: nat :: p in tab ==> |tab[p]| == 512)
    && (forall p: nat, i: nat :: p in tab && p in use && i < |tab[p]| ==> EntryOk(use, p, i, tab[p][i]))
    && (forall p: nat :: p in use ==> BackOk(tab, use, p))
  }

  predicate IsRoot(use: Uses, t: nat) {
    t in use && use[t].Root?
  }

  predicate MeansAt(tab: Tables, flat: Flat, t: nat, v: nat)
    requires v < NVPN
  {
    var e := PteAt(tab, t, v);
    (At(t, v) in flat <==> e.v) && (At(t, v) in flat ==> flat[At(t, v)] == e)
  }

  /** `flat` is what the tables mean. */
  ghost predicate Means(tab: Tables, use: Uses, flat: Flat) {
    && (forall t: nat, v: nat :: IsRoot(use, t) && v < NVPN ==> MeansAt(tab, flat, t, v))
    && (forall k: At :: k in flat ==> IsRoot(use, k.t) && k.v < NVPN)
  }

  /** A path through a table passes the pages labelled with its places. */
  lemma PathUses(tab: Tables, use: Uses, t: nat, v: nat)
    requires WellFormed(tab, use) && t in use && use[t].Root? && v < NVPN
    ensures var q := PathOf(v); var e2 := Entry(tab, t, q.l2);
            e2.v ==>
              && e2.ppn in tab && e2.ppn in use && use[e2.ppn] == Mid(t, q.l2)
              && var e1 := Entry(tab, e2.ppn, q.l1);
                 e1.v ==> e1.ppn in tab && e1.ppn in use && use[e1.ppn] == Low(t, q.l2, q.l1)
  {
    var q := PathOf(v);
    var e2 := Entry(tab, t, q.l2);
    assert EntryOk(use, t, q.l2, tab[t][q.l2]);
    if e2.v {
      assert EntryOk(use, e2.ppn, q.l1, tab[e2.ppn][q.l1]);
    }
  }

  /** The lowest table page of a place is on the path of every page number of that place. */
  lemma LowIsOnPath(tab: Tables, use: Uses, t: nat, v: nat, p: nat)
    requires WellFormed(tab, use) && p in use && v < NVPN && use[p] == Low(t, PathOf(v).l2, PathOf(v).l1)
    ensures t in use && use[t].Root? && PteAt(tab, t, v) == Entry(tab, p, PathOf(v).l0)
  {
    assert BackOk(tab, use, p);
  }

  function WriteEntry(tab: Tables, p: nat, i: nat, e: Pte): Tables
    requires p in tab && i < |tab[p]|
  {
    tab[p := tab[p][i := e]]
  }

  /** The entry of one page written. */
  function Put(flat: Flat, t: nat, v: nat, e: Pte): Flat {
    if e.v then flat[At(t, v) := e] else flat - {At(t, v)}
  }

  /** Writing one entry of a lowest table changes the meaning at exactly one page number. */
  lemma LeafWrite(tab: Tables, use: Uses, flat: Flat, t: nat, v: nat, p: nat, e: Pte)
    requires WellFormed(tab, use) && Means(tab, use, flat)
    requires p in tab && p in use && v < NVPN && use[p] == Low(t, PathOf(v).l2, PathOf(v).l1)
    requires e.v ==> Leafy(e) && e.ppn != 0
    ensures |tab[p]| == 512 && IsRoot(use, t)
    ensures WellFormed(WriteEntry(tab, p, PathOf(v).l0, e), use)
    ensures Means(WriteEntry(tab, p, PathOf(v).l0, e), use, Put(flat, t, v, e))
  {
    var tab' := WriteEntry(tab, p, PathOf(v).l0, e);
    var flat' := Put(flat, t, v, e);
    LowIsOnPath(tab, use, t, v, p);
    LeafWriteIsWellFormed(tab, use, PathOf(v).l0, p, e);
    forall r: nat, w: nat | IsRoot(use, r) && w < NVPN ensures MeansAt(tab', flat', r, w) {
      assert MeansAt(tab, flat, r, w);
      LeafWriteElsewhere(tab, use, t, v, p, e, r, w);
    }
  }

  lemma LeafWriteIsWellFormed(tab: Tables, use: Uses, k: nat, p: nat, e: Pte)
    requires WellFormed(tab, use) && p in tab && p in use && use[p].Low? && k < 512
    requires e.v ==> Leafy(e) && e.ppn != 0
    ensures |tab[p]| == 512 && WellFormed(WriteEntry(tab, p, k, e), use)
  {
    var tab' := WriteEntry(tab, p, k, e);
    forall q: nat, i: nat | q in tab' && q in use && i < |tab'[q]| ensures EntryOk(use, q, i, tab'[q][i]) {
      assert EntryOk(use, q, i, tab[q][i]);
    }
    forall q: nat | q in use ensures BackOk(tab', use, q) {
      assert BackOk(tab, use, q);
      match use[q]
      case Mid(t, i) => assert Entry(tab', t, i) == Entry(tab, t, i);
      case Low(t, i, j) =>
        var m := Entry(tab, t, i).ppn;
        assert EntryOk(use, t, i, tab[t][i]);
        assert Entry(tab', t, i) == Entry(tab, t, i) && Entry(tab', m, j) == Entry(tab, m, j);
      case _ =>
    }
  }

  lemma LeafWriteElsewhere(tab: Tables, use: Uses, t: nat, v: nat, p: nat, e: Pte, r: nat, w: nat)
    requires WellFormed(tab, use) && p in tab && p in use && |tab[p]| == 512
    requires v < NVPN && use[p] == Low(t, PathOf(v).l2, PathOf(v).l1)
    requires r in use && use[r].Root? && w < NVPN
    ensures PteAt(WriteEntry(tab, p, PathOf(v).l0, e), r, w) == if r == t && w == v then e else PteAt(tab, r, w)
  {
    var tab' := WriteEntry(tab, p, PathOf(v).l0, e);
    PathUses(tab, use, r, w);
    LowIsOnPath(tab, use, t, v, p);
    assert BackOk(tab, use, p);
    var q := PathOf(w);
    assert VpnOf(q) == w && VpnOf(PathOf(v)) == v;
    assert Entry(tab', r, q.l2) == Entry(tab, r, q.l2);
    var e2 := Entry(tab, r, q.l2);
    if e2.v {
      assert Entry(tab', e2.ppn, q.l1) == Entry(tab, e2.ppn, q.l1);
    }
  }

  const EMPTY: seq<Pte> := seq(512, _ => ZERO)

  /** Linking a fresh zeroed table page into an inner table changes no meaning. */
  lemma TableLink(tab: Tables, use: Uses, flat: Flat, p: nat, i: nat, q: nat)
    requires WellFormed(tab, use) && Means(tab, use, flat)
    requires p in tab && p in use && !use[p].Low? && i < 512 && |tab[p]| == 512 && !tab[p][i].v && q !in use
    ensures var tab' := WriteEntry(tab[q := EMPTY], p, i, Pointer(q)); var use' := use[q := ChildUse(p, use[p], i)];
            WellFormed(tab', use') && Means(tab', use', flat)
  {
    var tab' := WriteEntry(tab[q := EMPTY], p, i, Pointer(q));
    var use' := use[q := ChildUse(p, use[p], i)];
    LinkIsWellFormed(tab, use, p, i, q);
    forall t: nat, v: nat | IsRoot(use', t) && v < NVPN ensures MeansAt(tab', flat, t, v) {
      assert IsRoot(use, t) && MeansAt(tab, flat, t, v);
      LinkElsewhere(tab, use, p, i, q, t, v);
    }
  }

  lemma LinkIsWellFormed(tab: Tables, use: Uses, p: nat, i: nat, q: nat)
    requires WellFormed(tab, use)
    requires p in tab && p in use && !use[p].Low? && i < 512 && |tab[p]| == 512 && !tab[p][i].v && q !in use
    ensures WellFormed(WriteEntry(tab[q := EMPTY], p, i, Pointer(q)), use[q := ChildUse(p, use[p], i)])
  {
    var tab' := WriteEntry(tab[q := EMPTY], p, i, Pointer(q));
    var use' := use[q := ChildUse(p, use[p], i)];
    assert q !in tab;
    assert BackOk(tab, use, p);
    forall r: nat, k: nat | r in tab' && r in use' && k < |tab'[r]| ensures EntryOk(use', r, k, tab'[r][k]) {
      if r != q {
        assert EntryOk(use, r, k, tab[r][k]);
      }
    }
    forall r: nat | r in use' ensures BackOk(tab', use', r) {
      if r != q {
        assert BackOk(tab, use, r);
        LinkKeepsBack(tab, use, p, i, q, r);
      }
    }
  }

  lemma LinkKeepsBack(tab: Tables, use: Uses, p: nat, i: nat, q: nat, r: nat)
    requires WellFormed(tab, use)
    requires p in tab && p in use && !use[p].Low? && i < 512 && |tab[p]| == 512 && !tab[p][i].v && q !in use
    requires r in use && r != q
    ensures BackOk(WriteEntry(tab[q := EMPTY], p, i, Pointer(q)), use[q := ChildUse(p, use[p], i)], r)
  {
    var tab' := WriteEntry(tab[q := EMPTY], p, i, Pointer(q));
    assert BackOk(tab, use, r);
    match use[r]
    case Mid(t, a) => assert Entry(tab', t, a) == Entry(tab, t, a);
    case Low(t, a, b) =>
      assert EntryOk(use, t, a, tab[t][a]);
      assert Entry(tab', t, a) == Entry(tab, t, a);
      var m := Entry(tab, t, a).ppn;
      assert Entry(tab', m, b) == Entry(tab, m, b);
    case _ =>
  }

  lemma LinkElsewhere(tab: Tables, use: Uses, p: nat, i: nat, q: nat, t: nat, v: nat)
    requires WellFormed(tab, use)
    requires p in tab && p in use && !use[p].Low? && i < 512 && |tab[p]| == 512 && !tab[p][i].v && q !in use
    requires t in use && use[t].Root? && v < NVPN
    ensures var tab' := WriteEntry(tab[q := EMPTY], p, i, Pointer(q));
            PteAt(tab', t, v).v == PteAt(tab, t, v).v && (PteAt(tab, t, v).v ==> PteAt(tab', t, v) == PteAt(tab, t, v))
  {
    var tab' := WriteEntry(tab[q := EMPTY], p, i, Pointer(q));
    PathUses(tab, use, t, v);
    var k := PathOf(v);
    var e2 := Entry(tab, t, k.l2);
    assert q !in tab;
    if e2.v {
      assert Entry(tab', t, k.l2) == e2;
      var e1 := Entry(tab, e2.ppn, k.l1);
      if e1.v {
        assert Entry(tab', e2.ppn, k.l1) == e1;
        assert Entry(tab', e1.ppn, k.l0) == Entry(tab, e1.ppn, k.l0);
      }
    }
  }

  /** A fresh zeroed root is a table with no mapping. */
  lemma NewRoot(tab: Tables, use: Uses, flat: Flat, q: nat)
    requires WellFormed(tab, use) && Means(tab, use, flat) && q !in use
    ensures WellFormed(tab[q := EMPTY], use[q := Root]) && Means(tab[q := EMPTY], use[q := Root], flat)
  {
    var tab', use' := tab[q := EMPTY], use[q := Root];
    assert q !in tab;
    forall r: nat, k: nat | r in tab' && r in use' && k < |tab'[r]| ensures EntryOk(use', r, k, tab'[r][k]) {
      if r != q {
        assert EntryOk(use, r, k, tab[r][k]);
      }
    }
    forall r: nat | r in use' ensures BackOk(tab', use', r) {
      if r != q {
        assert BackOk(tab, use, r);
        match use[r]
        case Low(t, a, b) => assert EntryOk(use, t, a, tab[t][a]);
        case _ =>
      }
    }
    forall t: nat, v: nat | IsRoot(use', t) && v < NVPN ensures MeansAt(tab', flat, t, v) {
      if t != q {
        assert IsRoot(use, t) && MeansAt(tab, flat, t, v);
        PathUses(tab, use, t, v);
      }
    }
  }

  /** The use of a page that is no table page does not matter to the tables. */
  lemma OtherUse(tab: Tables, use: Uses, use': Uses, flat: Flat, q: nat)
    requires WellFormed(tab, use) && Means(tab, use, flat)
    requires q in use ==> !IsTable(use[q])
    requires q in use' ==> !IsTable(use'[q])
    requires forall p: nat :: p != q ==> (p in use' <==> p in use) && (p in use ==> use'[p] == use[p])
    ensures WellFormed(tab, use') && Means(tab, use', flat)
  {
    forall r: nat, k: nat | r in tab && r in use' && k < |tab[r]| ensures EntryOk(use', r, k, tab[r][k]) {
      assert EntryOk(use, r, k, tab[r][k]);
    }
    forall r: nat | r in use' ensures BackOk(tab, use', r) {
      if r != q {
        assert BackOk(tab, use, r);
      }
    }
    forall t: nat, v: nat | IsRoot(use', t) && v < NVPN ensures MeansAt(tab, flat, t, v) {
      assert IsRoot(use, t);
    }
  }

  // ---------------------------------------------------------------------------------------
  // Physical memory
  // ---------------------------------------------------------------------------------------

  datatype Perm = Perm(r: bool, w: bool, x: bool, u: bool)

  predicate MapsPage(perm: Perm) {
    perm.r || perm.w || perm.x
  }

  /** PA2PTE(pa) | perm | PTE_V */
  function MakePte(ppn: nat, perm: Perm): Pte {
    Pte(true, perm.r, perm.w, perm.x, perm.u, ppn)
  }

  /** n pages of t from v on map to consecutive physical pages from ppn on, all else is as before. */
  ghost predicate Mapped(flat: Flat, flat': Flat, t: nat, v: nat, n: nat, ppn: nat, perm: Perm) {
    forall k: At :: if k.t == t && v <= k.v < v + n then k in flat' && flat'[k] == MakePte(ppn + (k.v - v), perm)
                    else (k in flat' <==> k in flat) && (k in flat ==> flat'[k] == flat[k])
  }

  lemma MappedStep(flat: Flat, flat1: Flat, t: nat, v: nat, n: nat, ppn: nat, perm: Perm)
    requires Mapped(flat, flat1, t, v, n, ppn, perm)
    ensures Mapped(flat, Put(flat1, t, v + n, MakePte(ppn + n, perm)), t, v, n + 1, ppn, perm)
  {
  }

  /** n pages of t from v on are gone, all else is as before. */
  ghost predicate Unmapped(flat: Flat, flat': Flat, t: nat, v: nat, n: nat) {
    forall k: At :: (k in flat' <==> k in flat && !(k.t == t && v <= k.v < v + n)) && (k in flat' ==> flat'[k] == flat[k])
  }

  lemma UnmappedStep(flat: Flat, flat1: Flat, t: nat, v: nat, n: nat)
    requires Unmapped(flat, flat1, t, v, n)
    ensures Unmapped(flat, Put(flat1, t, v + n, ZERO), t, v, n + 1)
  {
  }

  /** From (use, free) to (use', free') only table pages of t were allocated, and no page lost. */
  ghost predicate OnlyTables(use: Uses, free: set<nat>, use': Uses, free': set<nat>, t: nat) {
    && use.Keys <= use'.Keys
    && (forall p: nat :: p in use ==> use'[p] == use[p])
    && (forall p: nat :: p in use' && p !in use ==> (use'[p].Mid? || use'[p].Low?) && use'[p].t == t)
    && (forall p: nat :: p in free' || p in use' <==> p in free || p in use)
    && free' <= free
  }

  lemma OneTable(use: Uses, free: set<nat>, q: nat, u: Use, t: nat)
    requires q in free && q !in use && (u.Mid? || u.Low?) && u.t == t
    ensures OnlyTables(use, free, use[q := u], free - {q}, t)
  {
  }

  lemma MoreTables(use: Uses, free: set<nat>, use': Uses, free': set<nat>, use'': Uses, free'': set<nat>, t: nat)
    requires OnlyTables(use, free, use', free', t) && OnlyTables(use', free', use'', free'', t)
    ensures OnlyTables(use, free, use'', free'', t)
  {
  }

  // ---------------------------------------------------------------------------------------
  // Counting table pages
  // ---------------------------------------------------------------------------------------

  /** A place for a table page below a root. */
  datatype Slot = Upper(i: nat) | Lower(i: nat, j: nat)

  function SlotOf(u: Use): Slot {
    match u
    case Low(_, i, j) => Lower(i, j)
    case Mid(_, i) => Upper(i)
    case _ => Upper(0)
  }

  ghost function SlotSet(use: Uses, t: nat): set<Slot> {
    set p | p in use && (use[p].Mid? || use[p].Low?) && use[p].t == t :: SlotOf(use[p])
  }

  /** `have` is that set, kept folded like `Memory.Valid` until `SlotsAre` is called. */
  ghost predicate IsSlots(have: set<Slot>, use: Uses, t: nat) {
    forall k: nat :: SetKey(k) ==> have == SlotSet(use, t)
  }

  lemma SlotsExist(use: Uses, t: nat)
    ensures exists have :: IsSlots(have, use, t)
  {
    assert IsSlots(SlotSet(use, t), use, t);
  }

  /** The places of table t that have a page. */
  ghost function Slots(use: Uses, t: nat): (have: set<Slot>)
    ensures IsSlots(have, use, t)
  {
    SlotsExist(use, t);
    var have :| IsSlots(have, use, t); have
  }

  lemma SlotsAre(use: Uses, t: nat)
    ensures Slots(use, t) == SlotSet(use, t)
  {
    assert SetKey(0);
  }

  /** The places on the way to page v. */
  ghost function PageSlots(v: nat): set<Slot> {
    if v < NVPN then {Upper(PathOf(v).l2), Lower(PathOf(v).l2, PathOf(v).l1)} else {}
  }

  ghost function AllPageSlots(v: nat, n: nat): set<Slot> {
    if n == 0 then {} else AllPageSlots(v, n - 1) + PageSlots(v + n - 1)
  }

  ghost predicate IsPath(s: set<Slot>, v: nat, n: nat) {
    forall k: nat :: SetKey(k) ==> s == AllPageSlots(v, n)
  }

  lemma PathExists(v: nat, n: nat)
    ensures exists s :: IsPath(s, v, n)
  {
    assert IsPath(AllPageSlots(v, n), v, n);
  }

  /** The places on the way to any of the pages v .. v+n; folded, `PathIs` and `PathStep` open it. */
  ghost function PathSlots(v: nat, n: nat): (s: set<Slot>)
    ensures IsPath(s, v, n)
  {
    PathExists(v, n);
    var s :| IsPath(s, v, n); s
  }

  lemma PathIs(v: nat, n: nat)
    ensures PathSlots(v, n) == AllPageSlots(v, n)
  {
    assert SetKey(0);
  }

  lemma PathStep(v: nat, n: nat)
    ensures PathSlots(v, 0) == {} && PathSlots(v, n + 1) == PathSlots(v, n) + PageSlots(v + n) && PathSlots(v, 1) == PageSlots(v)
  {
    PathIs(v, 0);
    PathIs(v, n);
    PathIs(v, n + 1);
    PathIs(v, 1);
    assert AllPageSlots(v, 0) == {};
  }

  /** Those of them that table t does not have yet: the table pages that mapping v .. v+n takes. */
  ghost function Lacking(use: Uses, t: nat, v: nat, n: nat): (need: set<Slot>)
    ensures IsLacking(need, use, t, v, n)
  {
    LackingExists(use, t, v, n);
    var need :| IsLacking(need, use, t, v, n); need
  }

  /** Folded, too: `LackingIs` opens it. */
  ghost predicate IsLacking(need: set<Slot>, use: Uses, t: nat, v: nat, n: nat) {
    forall k: nat :: SetKey(k) ==> need == PathSlots(v, n) - Slots(use, t)
  }

  lemma LackingExists(use: Uses, t: nat, v: nat, n: nat)
    ensures exists need :: IsLacking(need, use, t, v, n)
  {
    assert IsLacking(PathSlots(v, n) - Slots(use, t), use, t, v, n);
  }

  lemma LackingIs(use: Uses, t: nat, v: nat, n: nat)
    ensures Lacking(use, t, v, n) == PathSlots(v, n) - Slots(use, t)
  {
    assert SetKey(0);
  }

  /** Places `need` are added, at one free page each. */
  ghost predicate Cost(have: set<Slot>, free: nat, have': set<Slot>, free': nat, need: set<Slot>) {
    have' == have + need && need !! have && free' + |need| == free
  }

  lemma CostMore(have: set<Slot>, free: nat, have': set<Slot>, free': nat, have'': set<Slot>, free'': nat, need: set<Slot>, need': set<Slot>)
    requires Cost(have, free, have', free', need) && Cost(have', free', have'', free'', need')
    ensures Cost(have, free, have'', free'', need + need')
  {
    assert need !! need';
    assert |need + need'| == |need| + |need'|;
  }

  /** From (use, free) to (use', free') the places `need` of t got pages, one free page each. */
  ghost predicate Spent(use: Uses, free: set<nat>, use': Uses, free': set<nat>, t: nat, need: set<Slot>) {
    forall k: nat :: CostKey(k) ==> Cost(Slots(use, t), |free|, Slots(use', t), |free'|, need)
  }

  lemma SpentMeans(use: Uses, free: set<nat>, use': Uses, free': set<nat>, t: nat, need: set<Slot>)
    requires Spent(use, free, use', free', t, need)
    ensures Cost(Slots(use, t), |free|, Slots(use', t), |free'|, need)
  {
    assert CostKey(0);
  }

  lemma SpentSize(use: Uses, free: set<nat>, use': Uses, free': set<nat>, t: nat, need: set<Slot>)
    requires Spent(use, free, use', free', t, need)
    ensures |free'| + |need| == |free|
  {
    SpentMeans(use, free, use', free', t, need);
  }

  lemma SpentNothing(use: Uses, free: set<nat>, t: nat)
    ensures Spent(use, free, use, free, t, {})
  {
    var have := Slots(use, t);
    assert have + {} == have;
  }

  lemma SpentMore(use: Uses, free: set<nat>, use': Uses, free': set<nat>, use'': Uses, free'': set<nat>, t: nat, need: set<Slot>, need': set<Slot>)
    requires Spent(use, free, use', free', t, need) && Spent(use', free', use'', free'', t, need')
    ensures Spent(use, free, use'', free'', t, need + need')
  {
    SpentMeans(use, free, use', free', t, need);
    SpentMeans(use', free', use'', free'', t, need');
    CostMore(Slots(use, t), |free|, Slots(use', t), |free'|, Slots(use'', t), |free''|, need, need');
  }

  /** The place of a missing table page is not taken. */
  lemma SlotIsFree(tab: Tables, use: Uses, p: nat, i: nat, t: nat)
    requires WellFormed(tab, use) && p in tab && p in use && i < 512 && |tab[p]| == 512 && !tab[p][i].v
    requires (use[p].Root? && t == p) || (use[p].Mid? && use[p].t == t)
    ensures SlotOf(ChildUse(p, use[p], i)) !in Slots(use, t)
  {
    SlotsAre(use, t);
    assert BackOk(tab, use, p);
    forall q: nat | q in use && (use[q].Mid? || use[q].Low?) && use[q].t == t ensures SlotOf(use[q]) != SlotOf(ChildUse(p, use[p], i)) {
      assert BackOk(tab, use, q);
    }
  }

  predicate HasSlot(use: Uses, t: nat, p: nat, s: Slot) {
    p in use && (use[p].Mid? || use[p].Low?) && use[p].t == t && SlotOf(use[p]) == s
  }

  lemma InSlots(use: Uses, t: nat, s: Slot)
    ensures s in Slots(use, t) <==> exists p: nat :: HasSlot(use, t, p, s)
  {
    SlotsAre(use, t);
    if s in SlotSet(use, t) {
      var p :| p in use && (use[p].Mid? || use[p].Low?) && use[p].t == t && SlotOf(use[p]) == s;
      assert HasSlot(use, t, p, s);
    }
  }

  lemma SlotAdded(use: Uses, q: nat, u: Use, t: nat, s: Slot)
    requires q !in use && (u.Mid? || u.Low?) && u.t == t
    ensures s in Slots(use[q := u], t) <==> s in Slots(use, t) || s == SlotOf(u)
  {
    var use' := use[q := u];
    InSlots(use, t, s);
    InSlots(use', t, s);
    if p: nat :| HasSlot(use, t, p, s) {
      assert HasSlot(use', t, p, s);
    }
    if s == SlotOf(u) {
      assert HasSlot(use', t, q, s);
    }
    if p: nat :| HasSlot(use', t, p, s) {
      assert p != q ==> HasSlot(use, t, p, s);
    }
  }

  lemma OneSlot(use: Uses, free: set<nat>, q: nat, u: Use, t: nat)
    requires q in free && q !in use && (u.Mid? || u.Low?) && u.t == t && SlotOf(u) !in Slots(use, t)
    ensures Spent(use, free, use[q := u], free - {q}, t, {SlotOf(u)})
  {
    var have, have' := Slots(use, t), Slots(use[q := u], t);
    forall s: Slot ensures s in have' <==> s in have + {SlotOf(u)} {
      SlotAdded(use, q, u, t, s);
    }
    assert have' == have + {SlotOf(u)};
  }

  /** Pages of v .. v+n, and one more. */
  lemma LackingStep(use: Uses, use': Uses, t: nat, v: nat, n: nat)
    requires Slots(use', t) == Slots(use, t) + Lacking(use, t, v, n)
    ensures Lacking(use, t, v, n + 1) == Lacking(use, t, v, n) + Lacking(use', t, v + n, 1)
    ensures PathSlots(v + n, 1) == PageSlots(v + n)
  {
    PathStep(v, n);
    PathStep(v + n, 0);
    LackingIs(use, t, v, n);
    LackingIs(use, t, v, n + 1);
    LackingIs(use', t, v + n, 1);
    WithoutBoth(PathSlots(v, n), PageSlots(v + n), Slots(use, t), Slots(use', t));
  }

  lemma WithoutBoth(a: set<Slot>, b: set<Slot>, have: set<Slot>, have': set<Slot>)
    requires have' == have + (a - have)
    ensures a + b - have == (a - have) + (b - have')
  {
  }

  lemma SubsetSize<T>(a: set<T>, b: set<T>)
    requires a <= b
    ensures |a| <= |b|
  {
    assert b == a + (b - a);
  }

  lemma PageSlotsAt(v: nat, q: Path)
    requires q.l2 < 512 && q.l1 < 512 && q.l0 < 512 && v == VpnOf(q)
    ensures PathSlots(v, 1) == {Upper(q.l2), Lower(q.l2, q.l1)}
  {
    PathIsOnto(q);
    PathStep(v, 0);
  }

  lemma PathNext(v: nat, n: nat)
    ensures PathSlots(v, n + 1) == PathSlots(v, n) + PathSlots(v + n, 1)
  {
    PathStep(v, n);
    PathStep(v + n, 0);
  }

  lemma {:induction false} PathGrows(v: nat, n: nat, k: nat)
    requires n <= k
    ensures PathSlots(v, n) <= PathSlots(v, k)
  {
    if n < k {
      PathGrows(v, n, k - 1);
      PathStep(v, k - 1);
    }
  }

  lemma LackingGrows(use: Uses, t: nat, v: nat, n: nat, k: nat)
    requires n <= k
    ensures |Lacking(use, t, v, n)| <= |Lacking(use, t, v, k)|
  {
    PathGrows(v, n, k);
    LackingIs(use, t, v, n);
    LackingIs(use, t, v, k);
    var a, b, have := PathSlots(v, n), PathSlots(v, k), Slots(use, t);
    assert a - have <= b - have;
    SubsetSize(a - have, b - have);
  }

  lemma CostAtLeast(have: set<Slot>, free: nat, have': set<Slot>, free': nat, need: set<Slot>, more: set<Slot>)
    requires Cost(have, free, have', free', need) && free' < |more| && more !! have'
    ensures free < |need + more|
  {
    assert |need + more| == |need| + |more|;
  }

  lemma SpentStep(use: Uses, free: set<nat>, use': Uses, free': set<nat>, use'': Uses, free'': set<nat>, t: nat, v: nat, n: nat)
    requires Spent(use, free, use', free', t, Lacking(use, t, v, n)) && Spent(use', free', use'', free'', t, Lacking(use', t, v + n, 1))
    ensures Spent(use, free, use'', free'', t, Lacking(use, t, v, n + 1))
  {
    SpentMeans(use, free, use', free', t, Lacking(use, t, v, n));
    SpentMore(use, free, use', free', use'', free'', t, Lacking(use, t, v, n), Lacking(use', t, v + n, 1));
    assert Lacking(use, t, v, n + 1) == Lacking(use, t, v, n) + Lacking(use', t, v + n, 1) by {
      LackingStep(use, use', t, v, n);
    }
  }

  lemma SpentNone(use: Uses, free: set<nat>, t: nat, v: nat)
    ensures Spent(use, free, use, free, t, Lacking(use, t, v, 0))
  {
    SpentNothing(use, free, t);
    LackingIs(use, t, v, 0);
    PathStep(v, 0);
    assert Lacking(use, t, v, 0) == {};
  }

  /** When the page after n pages cannot be paid, neither can any range that goes on to it. */
  lemma CannotPay(use: Uses, free: set<nat>, use': Uses, free': set<nat>, t: nat, v: nat, n: nat, k: nat)
    requires Spent(use, free, use', free', t, Lacking(use, t, v, n)) && n < k && |free'| < |Lacking(use', t, v + n, 1)|
    ensures |free| < |Lacking(use, t, v, k)|
  {
    var need, more := Lacking(use, t, v, n), Lacking(use', t, v + n, 1);
    SpentMeans(use, free, use', free', t, need);
    assert |free| < |need + more| by {
      LackingIs(use', t, v + n, 1);
      CostAtLeast(Slots(use, t), |free|, Slots(use', t), |free'|, need, more);
    }
    assert Lacking(use, t, v, n + 1) == need + more by {
      LackingStep(use, use', t, v, n);
    }
    LackingGrows(use, t, v, n + 1, k);
  }

  /** A frame is the page its place maps. */
  predicate FrameOk(use: Uses, flat: Flat, p: nat)
    requires p in use
  {
    use[p].Frame? ==> At(use[p].t, use[p].v) in flat && flat[At(use[p].t, use[p].v)].ppn == p
  }

  lemma FramesFollow(use: Uses, flat: Flat, t: nat, v: nat, e: Pte)
    requires forall p: nat :: p in use ==> FrameOk(use, flat, p)
    requires forall q: nat :: q in use && use[q] == Frame(t, v) ==> e.v && e.ppn == q
    ensures forall p: nat :: p in use ==> FrameOk(use, Put(flat, t, v, e), p)
  {
    forall p: nat | p in use ensures FrameOk(use, Put(flat, t, v, e), p) {
      assert FrameOk(use, flat, p);
    }
  }

  /** Pages v .. v+n of t are mapped to their own frames. */
  ghost predicate Backed(use: Uses, flat: Flat, t: nat, v: nat, n: nat) {
    forall w: nat :: v <= w < v + n ==>
      At(t, w) in flat && flat[At(t, w)].ppn in use && use[flat[At(t, w)].ppn] == Frame(t, w)
  }

  /** The frames of pages v .. v+n of t. */
  ghost function Frames(use: Uses, t: nat, v: nat, n: nat): set<nat> {
    set p | p in use && use[p].Frame? && use[p].t == t && v <= use[p].v < v + n
  }

  lemma FramesStep(use: Uses, flat: Flat, use': Uses, flat': Flat, t: nat, v: nat, n: nat, p: nat)
    requires forall q: nat :: q in use' ==> FrameOk(use', flat', q)
    requires Unmapped(flat, flat', t, v, n) && use' == use - Frames(use, t, v, n)
    requires At(t, v + n) in flat' && flat'[At(t, v + n)].ppn == p && p in use' && use'[p] == Frame(t, v + n)
    ensures Frames(use, t, v, n + 1) == Frames(use, t, v, n) + {p}
  {
    OwnFrame(use', flat', t, v + n, p);
    assert forall q: nat :: q in use && use[q] == Frame(t, v + n) ==> q in use';
  }

  /** Freeing the first n pages leaves the rest of a backed range backed. */
  lemma StillBacked(use: Uses, flat: Flat, use': Uses, flat': Flat, t: nat, v: nat, n: nat, npages: nat)
    requires Backed(use, flat, t, v, npages) && n < npages
    requires use' == use - Frames(use, t, v, n) && Unmapped(flat, flat', t, v, n)
    ensures Backed(use', flat', t, v + n, npages - n)
  {
  }

  // ---------------------------------------------------------------------------------------
  // Freeing a tree of tables
  // ---------------------------------------------------------------------------------------

  function Height(use: Uses, p: nat): nat {
    if p !in use then 0 else if use[p].Root? then 2 else if use[p].Mid? then 1 else 0
  }

  /** The entry of table page p (with use l) under which a table page with use u hangs. */
  function HangsAt(p: nat, l: Use, u: Use): int {
    if l.Root? && (u.Mid? || u.Low?) && u.t == p then u.i
    else if l.Mid? && u.Low? && u.t == l.t && u.i == l.i then u.j
    else -1
  }

  /** The table pages that hang under the first n entries of p. */
  ghost function Under(use: Uses, p: nat, n: nat): set<nat>
    requires p in use
  {
    set q | q in use && 0 <= HangsAt(p, use[p], use[q]) < n
  }

  /** The table pages at and below p. */
  ghost function Below(use: Uses, p: nat): set<nat>
    requires p in use
  {
    set q | q in use && (q == p || 0 <= HangsAt(p, use[p], use[q]))
  }

  ghost predicate Agree(tab: Tables, tab0: Tables, s: set<nat>) {
    forall q: nat :: q in s ==> q in tab && q in tab0 && tab[q] == tab0[q]
  }

  ghost predicate NoLeaves(tab: Tables, use: Uses, p: nat)
    requires p in use
  {
    forall q: nat, k: nat :: q in Below(use, p) && q in tab && k < |tab[q]| ==> tab[q][k].v ==> !Leafy(tab[q][k])
  }

  /** The same for p itself and what hangs under its first n entries. */
  ghost predicate NoLeavesYet(tab: Tables, use: Uses, p: nat, n: nat)
    requires p in use
  {
    && (forall k: nat :: p in tab && k < n && k < |tab[p]| ==> tab[p][k].v ==> !Leafy(tab[p][k]))
    && (forall q: nat, k: nat :: q in Under(use, p, n) && q in tab && k < |tab[q]| ==> tab[q][k].v ==> !Leafy(tab[q][k]))
  }

  lemma UnderIsBelow(use: Uses, p: nat)
    requires p in use && forall q: nat :: q in use ==> (use[q].Mid? || use[q].Low? ==> use[q].i < 512) && (use[q].Low? ==> use[q].j < 512)
    ensures Below(use, p) == Under(use, p, 512) + {p}
  {
  }

  /** Apart from page p, exactly the pages of s are gone. */
  ghost predicate Without(tab: Tables, tab': Tables, s: set<nat>, p: nat) {
    forall q: nat :: q != p ==> (q in tab' <==> q in tab && q !in s) && (q in tab' ==> tab'[q] == tab[q])
  }

  lemma WithoutMore(tab: Tables, tab': Tables, s: set<nat>, s': set<nat>, p: nat, i: nat)
    requires Without(tab, tab', s, p) && p in tab' && p !in s' && i < |tab'[p]|
    ensures p in tab' - s' && Without(tab, WriteEntry(tab' - s', p, i, ZERO), s + s', p)
  {
  }

  /** The tree of a child is still as it was when the trees of the earlier children are gone. */
  lemma ChildOfTree(tab: Tables, tab': Tables, tab0: Tables, use: Uses, p: nat, i: nat)
    requires WellFormed(tab0, use) && p in tab0 && p in use && i < 512 && |tab0[p]| == 512
    requires tab0[p][i].v && !Leafy(tab0[p][i])
    requires Agree(tab, tab0, Below(use, p)) && Without(tab, tab', Under(use, p, i), p)
    ensures var c := tab0[p][i].ppn;
            c in tab0 && c in use && Below(use, c) <= Below(use, p) && p !in Below(use, c) && Agree(tab', tab0, Below(use, c))
    ensures Height(use, tab0[p][i].ppn) < Height(use, p)
  {
    assert EntryOk(use, p, i, tab0[p][i]);
  }

  lemma UnderStep(tab: Tables, use: Uses, p: nat, i: nat)
    requires WellFormed(tab, use) && p in tab && p in use && i < 512 && |tab[p]| == 512
    ensures var e := tab[p][i];
            if e.v && !Leafy(e) then
              e.ppn in use && Under(use, p, i + 1) == Under(use, p, i) + Below(use, e.ppn) && Under(use, p, i) !! Below(use, e.ppn)
            else Under(use, p, i + 1) == Under(use, p, i)
  {
    var e := tab[p][i];
    assert EntryOk(use, p, i, e);
    forall q: nat | q in use && HangsAt(p, use[p], use[q]) == i
      ensures e.v && !Leafy(e) && e.ppn in use && q in Below(use, e.ppn)
    {
      assert BackOk(tab, use, q);
    }
  }

  /** Everything table t maps forgotten. */
  ghost predicate Dropped(flat: Flat, flat': Flat, t: nat) {
    forall k: At :: (k in flat' <==> k in flat && k.t != t) && (k in flat' ==> flat'[k] == flat[k])
  }

  /** A table that maps nothing has no leaf in any of its pages. */
  lemma NothingMapped(tab: Tables, use: Uses, flat: Flat, t: nat)
    requires WellFormed(tab, use) && Means(tab, use, flat) && IsRoot(use, t)
    requires forall k: At :: k in flat ==> k.t != t
    ensures NoLeaves(tab, use, t)
  {
    forall q: nat, k: nat | q in Below(use, t) && q in tab && k < |tab[q]| ensures tab[q][k].v ==> !Leafy(tab[q][k]) {
      assert EntryOk(use, q, k, tab[q][k]) && BackOk(tab, use, q);
      if use[q].Low? {
        var at := Path(use[q].i, use[q].j, k);
        PathIsOnto(at);
        LowIsOnPath(tab, use, t, VpnOf(at), q);
        assert MeansAt(tab, flat, t, VpnOf(at));
      }
    }
  }

  /** A table that maps a page has a leaf. */
  lemma MappedHasLeaf(tab: Tables, use: Uses, flat: Flat, k: At)
    requires WellFormed(tab, use) && Means(tab, use, flat) && k in flat
    ensures IsRoot(use, k.t) && !NoLeaves(tab, use, k.t)
  {
    var t, v := k.t, k.v;
    assert IsRoot(use, t) && MeansAt(tab, flat, t, v);
    LeafyEntry(tab, use, flat, t, v);
    PathUses(tab, use, t, v);
    var q := PathOf(v);
    var p := Entry(tab, Entry(tab, t, q.l2).ppn, q.l1).ppn;
    assert p in Below(use, t) && p in tab && q.l0 < |tab[p]| && tab[p][q.l0] == flat[At(t, v)];
  }

  /** The tables left when all tables of t are gone are whole, and mean the same. */
  lemma TreeGone(tab: Tables, use: Uses, flat: Flat, flat': Flat, t: nat)
    requires WellFormed(tab, use) && Means(tab, use, flat) && IsRoot(use, t) && Dropped(flat, flat', t)
    ensures WellFormed(tab - Below(use, t), use - Below(use, t)) && Means(tab - Below(use, t), use - Below(use, t), flat')
  {
    var tab', use' := tab - Below(use, t), use - Below(use, t);
    forall p: nat, i: nat | p in tab' && p in use' && i < |tab'[p]| ensures EntryOk(use', p, i, tab'[p][i]) {
      assert EntryOk(use, p, i, tab[p][i]) && BackOk(tab, use, p);
    }
    forall p: nat | p in use' ensures BackOk(tab', use', p) {
      assert BackOk(tab, use, p);
      if use[p].Low? {
        assert EntryOk(use, use[p].t, use[p].i, tab[use[p].t][use[p].i]);
      }
    }
    forall r: nat, v: nat | IsRoot(use', r) && v < NVPN ensures MeansAt(tab', flat', r, v) {
      assert IsRoot(use, r) && MeansAt(tab, flat, r, v);
      PathUses(tab, use, r, v);
    }
  }

  type Bytes = map<nat, seq<bv8>>

  datatype World = World(flat: Flat, use: Uses, free: set<nat>, data: Bytes)

  /** Tables are whole and mean `flat`; pages are free or in use; frames are mapped. */
  ghost predicate Sound(tab: Tables, data: Bytes, free: set<nat>, use: Uses, flat: Flat) {
    && WellFormed(tab, use) && Means(tab, use, flat)
    && 0 !in free && 0 !in use && free !! use.Keys
    && (forall p: nat :: p in data <==> p in use && !IsTable(use[p]))
    && (forall p: nat :: p in data ==> |data[p]| == PGSIZE)
    && (forall p: nat :: p in use ==> FrameOk(use, flat, p))
  }

  /** A page that is no table page comes, goes or changes its use. */
  lemma OtherSound(tab: Tables, data': Bytes, data: Bytes, free: set<nat>, free': set<nat>, use: Uses, use': Uses, flat: Flat, q: nat)
    requires Sound(tab, data, free, use, flat) && q != 0
    requires q in use ==> !IsTable(use[q])
    requires q in use' ==> !IsTable(use'[q]) && FrameOk(use', flat, q)
    requires forall p: nat :: p != q ==> (p in use' <==> p in use) && (p in use ==> use'[p] == use[p]) && (p in free' <==> p in free)
    requires forall p: nat :: p != q ==> (p in data' <==> p in data) && (p in data ==> data'[p] == data[p])
    requires (q in free' ==> q !in use') && (q in data' <==> q in use') && (q in data' ==> |data'[q]| == PGSIZE)
    ensures Sound(tab, data', free', use', flat)
  {
    OtherUse(tab, use, use', flat, q);
    forall p: nat | p in use' ensures FrameOk(use', flat, p) {
      if p != q {
        assert FrameOk(use, flat, p);
      }
    }
  }

  lemma LinkSound(tab: Tables, data: Bytes, free: set<nat>, use: Uses, flat: Flat, p: nat, i: nat, q: nat)
    requires Sound(tab, data, free, use, flat) && q in free
    requires p in tab && p in use && !use[p].Low? && i < 512 && |tab[p]| == 512 && !tab[p][i].v
    ensures Sound(WriteEntry(tab[q := EMPTY], p, i, Pointer(q)), data, free - {q}, use[q := ChildUse(p, use[p], i)], flat)
  {
    var use' := use[q := ChildUse(p, use[p], i)];
    TableLink(tab, use, flat, p, i, q);
    forall r: nat | r in use' ensures FrameOk(use', flat, r) {
      if r != q {
        assert FrameOk(use, flat, r);
      }
    }
  }

  lemma LeafSound(tab: Tables, data: Bytes, free: set<nat>, use: Uses, flat: Flat, t: nat, v: nat, p: nat, e: Pte)
    requires Sound(tab, data, free, use, flat)
    requires p in tab && p in use && v < NVPN && use[p] == Low(t, PathOf(v).l2, PathOf(v).l1)
    requires e.v ==> Leafy(e) && e.ppn != 0
    requires forall q: nat :: q in use && use[q] == Frame(t, v) ==> e.v && e.ppn == q
    ensures |tab[p]| == 512 && Sound(WriteEntry(tab, p, PathOf(v).l0, e), data, free, use, Put(flat, t, v, e))
  {
    LeafWrite(tab, use, flat, t, v, p, e);
    FramesFollow(use, flat, t, v, e);
  }

  lemma RootSound(tab: Tables, data: Bytes, free: set<nat>, use: Uses, flat: Flat, q: nat)
    requires Sound(tab, data, free, use, flat) && q in free
    ensures Sound(tab[q := EMPTY], data, free - {q}, use[q := Root], flat)
  {
    var use' := use[q := Root];
    NewRoot(tab, use, flat, q);
    forall r: nat | r in use' ensures FrameOk(use', flat, r) {
      if r != q {
        assert FrameOk(use, flat, r);
      }
    }
  }

  lemma GoneSound(tab: Tables, data: Bytes, free: set<nat>, use: Uses, flat: Flat, flat': Flat, t: nat)
    requires Sound(tab, data, free, use, flat) && IsRoot(use, t) && Dropped(flat, flat', t)
    requires forall p: nat :: p in use && use[p].Frame? ==> use[p].t != t
    ensures Sound(tab - Below(use, t), data, free + Below(use, t), use - Below(use, t), flat')
  {
    TreeGone(tab, use, flat, flat', t);
    DataSide(use, flat, flat', t);
  }

  /** Dropping t's tables touches no other page. */
  lemma DataSide(use: Uses, flat: Flat, flat': Flat, t: nat)
    requires IsRoot(use, t) && Dropped(flat, flat', t)
    requires forall p: nat :: p in use ==> FrameOk(use, flat, p)
    requires forall p: nat :: p in use && use[p].Frame? ==> use[p].t != t
    ensures forall p: nat :: p in Below(use, t) ==> IsTable(use[p])
    ensures var use' := use - Below(use, t); forall p: nat :: p in use' ==> FrameOk(use', flat', p)
  {
    forall p: nat | p in use && p !in Below(use, t) ensures FrameOk(use - Below(use, t), flat', p) {
      assert FrameOk(use, flat, p);
    }
  }

  /** From w to y the frames of pages v .. v+n of t were unmapped and freed, and nothing else. */
  ghost predicate Shrunk(w: World, y: World, t: nat, v: nat, n: nat) {
    var gone := Frames(w.use, t, v, n);
    && Unmapped(w.flat, y.flat, t, v, n)
    && y.use == w.use - gone && y.free == w.free + gone && y.data == w.data - gone
  }

  ghost predicate Stored(w: World) {
    && (forall p: nat :: p in w.use ==> FrameOk(w.use, w.flat, p))
    && (forall p: nat :: p in w.data <==> p in w.use && !IsTable(w.use[p]))
  }

  /** Always true.  A predicate or set defined under `forall k :: Key(k) ==> ...` is a mere name to
      the verifier until some `Key(0)` is asserted, which `Memory.Open` and its like do.  That keeps
      proofs that only hand such a fact on from searching its quantifiers; each kind has a key of its
      own, so that opening one does not open the others. */
  predicate Key(k: nat) {
    true
  }

  predicate SetKey(k: nat) {
    true
  }

  predicate CostKey(k: nat) {
    true
  }

  class Memory {
    /** Page-table pages, contents of all other allocated pages, and kalloc's free pages. */
    var tab: Tables
    var data: Bytes
    var free: set<nat>

    ghost var use: Uses
    ghost var flat: Flat

    /** Some free pages and nothing else. */
    constructor (pages: set<nat>)
      requires 0 !in pages
      ensures Valid() && free == pages && use == map[] && flat == map[]
    {
      tab, data, free, use, flat := map[], map[], pages, map[], map[];
    }

    /** `Sound`, kept folded until `Open` is called. */
    ghost predicate Valid()
      reads this
    {
      forall k: nat :: Key(k) ==> Sound(tab, data, free, use, flat)
    }

    lemma Open()
      requires Valid()
      ensures Sound(tab, data, free, use, flat)
    {
      assert Key(0);
    }

    /** All of it but the tables' own words. */
    ghost function Now(): World
      reads this
    {
      World(flat, use, free, data)
    }

    /** kalloc: a page of junk, or 0 when there is none. */
    method Kalloc() returns (p: nat)
      requires Valid()
      modifies this`free, this`data, this`use
      ensures Valid()
      ensures p == 0 <==> old(free) == {}
      ensures p == 0 ==> free == old(free) && data == old(data) && use == old(use)
      ensures p != 0 ==> p in old(free) && free == old(free) - {p} && p !in old(use) && use == old(use)[p := Other]
      ensures p != 0 ==> p !in old(data) && p in data && |data[p]| == PGSIZE && data == old(data)[p := data[p]]
    {
      Open();
      if free == {} {
        return 0;
      }
      p :| p in free;
      free := free - {p};
      data := data[p := seq(PGSIZE, _ => 5)];
      ghost var use' := use[p := Other];
      OtherSound(tab, data, old(data), old(free), free, use, use', flat, p);
      use := use';
    }

    /** kfree of a page that is no table page. */
    method Kfree(p: nat)
      requires Valid() && p in use && !IsTable(use[p])
      modifies this`free, this`data, this`use
      ensures Valid()
      ensures free == old(free) + {p} && use == old(use) - {p} && data == old(data) - {p}
    {
      Open();
      ghost var use' := use - {p};
      OtherSound(tab, data - {p}, data, free, free + {p}, use, use', flat, p);
      free := free + {p};
      data := data - {p};
      use := use';
    }

    /** memset or memmove over a whole page that is no table page. */
    method SetPage(p: nat, bytes: seq<bv8>)
      requires Valid() && p in data && |bytes| == PGSIZE
      modifies this`data
      ensures Valid() && data == old(data)[p := bytes]
    {
      Open();
      assert FrameOk(use, flat, p);
      OtherSound(tab, data[p := bytes], data, free, free, use, use, flat, p);
      data := data[p := bytes];
    }

    /** A fresh zeroed table page linked at entry i of inner table p (vm.c:125-128). */
    method AddTable(p: nat, i: nat, ghost t: nat) returns (q: nat)
      requires Valid() && p in tab && p in use && i < 512 && |tab[p]| == 512 && !tab[p][i].v
      requires (use[p].Root? && t == p) || (use[p].Mid? && use[p].t == t)
      modifies this`tab, this`data, this`free, this`use
      ensures Valid() && OnlyTables(old(use), old(free), use, free, t) && data == old(data)
      ensures q == 0 <==> old(free) == {}
      ensures q == 0 ==> tab == old(tab) && free == old(free) && use == old(use)
      ensures q != 0 ==> q in use && use[q] == ChildUse(p, old(use)[p], i)
      ensures q != 0 ==> Spent(old(use), old(free), use, free, t, {SlotOf(ChildUse(p, old(use)[p], i))}) && SlotOf(ChildUse(p, old(use)[p], i)) !in Slots(old(use), t)
    {
      if free == {} {
        return 0;
      }
      q :| q in free;
      LinkFacts(p, i, q, t);
      free := free - {q};
      tab := WriteEntry(tab[q := EMPTY], p, i, Pointer(q));
      use := use[q := ChildUse(p, use[p], i)];
    }

    lemma LinkFacts(p: nat, i: nat, q: nat, t: nat)
      requires Valid() && p in tab && p in use && i < 512 && |tab[p]| == 512 && !tab[p][i].v && q in free
      requires (use[p].Root? && t == p) || (use[p].Mid? && use[p].t == t)
      ensures var u := ChildUse(p, use[p], i);
              && q != 0 && q !in use && OnlyTables(use, free, use[q := u], free - {q}, t)
              && Spent(use, free, use[q := u], free - {q}, t, {SlotOf(u)}) && SlotOf(u) !in Slots(use, t)
              && Sound(WriteEntry(tab[q := EMPTY], p, i, Pointer(q)), data, free - {q}, use[q := u], flat)
    {
      Open();
      var u := ChildUse(p, use[p], i);
      SlotIsFree(tab, use, p, i, t);
      assert Spent(use, free, use[q := u], free - {q}, t, {SlotOf(u)}) by {
        OneSlot(use, free, q, u, t);
      }
      assert OnlyTables(use, free, use[q := u], free - {q}, t) by {
        OneTable(use, free, q, u, t);
      }
      LinkSound(tab, data, free, use, flat, p, i, q);
    }

    /** The use of the table page that walk is at when `level` levels remain below it. */
    ghost function Place(t: nat, va: nat, level: nat): Use
      requires level <= 2
    {
      if level == 2 then Root else if level == 1 then Mid(t, PX(2, va)) else Low(t, PX(2, va), PX(1, va))
    }

    /** The place that walk goes to from `level`. */
    ghost function StepSlot(va: nat, level: nat): Slot
      requires 1 <= level <= 2
    {
      if level == 2 then Upper(PX(2, va)) else Lower(PX(2, va), PX(1, va))
    }

    /** The places above the table page that walk is at. */
    ghost function SlotsAbove(va: nat, level: nat): set<Slot>
      requires level <= 2
    {
      if level == 2 then {} else if level == 1 then {StepSlot(va, 2)} else {StepSlot(va, 2), StepSlot(va, 1)}
    }

    /** One level of walk: from table page p to the next one on the way to va. */
    method WalkStep(t: nat, va: nat, p: nat, level: nat, alloc: bool) returns (ok: bool, q: nat)
      requires Valid() && IsRoot(use, t) && va < MAXVA && 1 <= level <= 2
      requires p in use && use[p] == Place(t, va, level) && (level == 2 ==> p == t)
      modifies this`tab, this`data, this`free, this`use
      ensures Valid() && OnlyTables(old(use), old(free), use, free, t) && data == old(data)
      ensures !alloc ==> tab == old(tab) && free == old(free) && use == old(use)
      ensures ok ==> q in use && use[q] == Place(t, va, level - 1) && Spent(old(use), old(free), use, free, t, {StepSlot(va, level)} - Slots(old(use), t))
      ensures !ok && alloc ==> free == {} && free == old(free) && use == old(use) && StepSlot(va, level) !in Slots(use, t)
      ensures !ok && !alloc ==> At(t, Vpn(va)) !in flat
    {
      Open();
      PxIsPath(va);
      var e := tab[p][PX(level, va)];
      assert EntryOk(use, p, PX(level, va), e);
      if e.v {
        InSlots(use, t, StepSlot(va, level));
        assert HasSlot(use, t, e.ppn, StepSlot(va, level));
        SpentNothing(use, free, t);
        assert {StepSlot(va, level)} - Slots(use, t) == {};
        return true, e.ppn;
      }
      if !alloc {
        MissingPath(tab, use, flat, t, Vpn(va), p, level);
        return false, 0;
      }
      SlotIsFree(tab, use, p, PX(level, va), t);
      assert SlotOf(ChildUse(p, use[p], PX(level, va))) == StepSlot(va, level);
      assert {StepSlot(va, level)} - Slots(use, t) == {StepSlot(va, level)};
      q := AddTable(p, PX(level, va), t);
      ok := q != 0;
    }

    /** The entry of va in its lowest table, with tables on the way made if `alloc`: one page for
        each that is lacking, and failure exactly when there are not that many. */
    method Walk(t: nat, va: nat, alloc: bool) returns (ok: bool, p: nat, k: nat)
      requires Valid() && IsRoot(use, t) && va < MAXVA
      modifies this`tab, this`data, this`free, this`use
      ensures Valid() && OnlyTables(old(use), old(free), use, free, t) && data == old(data)
      ensures !alloc ==> tab == old(tab) && free == old(free) && use == old(use)
      ensures ok ==> Vpn(va) < NVPN && p in use && p in tab && k == PathOf(Vpn(va)).l0
                     && use[p] == Low(t, PathOf(Vpn(va)).l2, PathOf(Vpn(va)).l1)
      ensures ok ==> Spent(old(use), old(free), use, free, t, Lacking(old(use), t, Vpn(va), 1))
      ensures alloc ==> (ok <==> |old(free)| >= |Lacking(old(use), t, Vpn(va), 1)|)
      ensures !ok && alloc ==> free == {}
      ensures !alloc && At(t, Vpn(va)) in flat ==> ok
    {
      p := t;
      var level := 2;
      SpentNothing(use, free, t);
      PathIsAbove(va);
      while level > 0
        invariant 0 <= level <= 2
        invariant Valid() && OnlyTables(old(use), old(free), use, free, t) && data == old(data)
        invariant !alloc ==> tab == old(tab) && free == old(free) && use == old(use)
        invariant IsRoot(use, t) && p in use && use[p] == Place(t, va, level) && (level == 2 ==> p == t)
        invariant Spent(old(use), old(free), use, free, t, SlotsAbove(va, level) - Slots(old(use), t))
      {
        ghost var use0, free0 := use, free;
        ok, p := WalkStep(t, va, p, level, alloc);
        MoreTables(old(use), old(free), use0, free0, use, free, t);
        if !ok {
          if alloc {
            WalkFails(old(use), old(free), use0, free0, t, va, level);
          }
          return false, 0, 0;
        }
        WalkSpends(old(use), old(free), use0, free0, use, free, t, va, level);
        level := level - 1;
      }
      LackingIs(old(use), t, Vpn(va), 1);
      SpentSize(old(use), old(free), use, free, t, Lacking(old(use), t, Vpn(va), 1));
      Open();
      PxIsPath(va);
      ok, k := true, PX(0, va);
    }

    lemma PathIsAbove(va: nat)
      requires va < MAXVA
      ensures PathSlots(Vpn(va), 1) == SlotsAbove(va, 0)
    {
      PxIsPath(va);
      PathStep(Vpn(va), 0);
    }

    lemma WalkSpends(use0: Uses, free0: set<nat>, use1: Uses, free1: set<nat>, use2: Uses, free2: set<nat>, t: nat, va: nat, level: nat)
      requires 1 <= level <= 2 && Spent(use0, free0, use1, free1, t, SlotsAbove(va, level) - Slots(use0, t))
      requires Spent(use1, free1, use2, free2, t, {StepSlot(va, level)} - Slots(use1, t))
      ensures Spent(use0, free0, use2, free2, t, SlotsAbove(va, level - 1) - Slots(use0, t))
    {
      var have, have1 := Slots(use0, t), Slots(use1, t);
      SpentMeans(use0, free0, use1, free1, t, SlotsAbove(va, level) - have);
      SpentMore(use0, free0, use1, free1, use2, free2, t, SlotsAbove(va, level) - have, {StepSlot(va, level)} - have1);
      WithoutBoth(SlotsAbove(va, level), {StepSlot(va, level)}, have, have1);
      assert SlotsAbove(va, level) + {StepSlot(va, level)} == SlotsAbove(va, level - 1);
    }

    lemma WalkFails(use0: Uses, free0: set<nat>, use1: Uses, free1: set<nat>, t: nat, va: nat, level: nat)
      requires va < MAXVA && 1 <= level <= 2 && Spent(use0, free0, use1, free1, t, SlotsAbove(va, level) - Slots(use0, t))
      requires free1 == {} && StepSlot(va, level) !in Slots(use1, t)
      ensures |free0| < |Lacking(use0, t, Vpn(va), 1)|
    {
      PathIsAbove(va);
      LackingIs(use0, t, Vpn(va), 1);
      var have, have1 := Slots(use0, t), Slots(use1, t);
      var need, more := SlotsAbove(va, level) - have, {StepSlot(va, level)};
      SpentMeans(use0, free0, use1, free1, t, need);
      CostAtLeast(have, |free0|, have1, |free1|, need, more);
      assert need + more <= SlotsAbove(va, 0) - have;
      SubsetSize(need + more, SlotsAbove(va, 0) - have);
    }

    /** Write entry k of lowest table p, which is the entry of page v. */
    method SetLeaf(t: nat, ghost v: nat, p: nat, k: nat, e: Pte)
      requires Valid() && p in tab && p in use && v < NVPN && use[p] == Low(t, PathOf(v).l2, PathOf(v).l1) && k == PathOf(v).l0
      requires e.v ==> Leafy(e) && e.ppn != 0
      requires forall q: nat :: q in use && use[q] == Frame(t, v) ==> e.v && e.ppn == q
      modifies this`tab, this`flat
      ensures Valid() && flat == Put(old(flat), t, v, e)
    {
      Open();
      LeafSound(tab, data, free, use, flat, t, v, p, e);
      tab := WriteEntry(tab, p, k, e);
      flat := Put(flat, t, v, e);
    }

    /** Entry k of lowest table p, which is the entry of page v. */
    method GetLeaf(t: nat, v: nat, p: nat, k: nat) returns (e: Pte)
      requires Valid() && p in tab && p in use && v < NVPN && use[p] == Low(t, PathOf(v).l2, PathOf(v).l1) && k == PathOf(v).l0
      ensures (e.v <==> At(t, v) in flat) && (e.v ==> e == flat[At(t, v)] && Leafy(e) && e.ppn != 0)
    {
      Open();
      LowIsOnPath(tab, use, t, v, p);
      assert MeansAt(tab, flat, t, v);
      e := tab[p][k];
      assert EntryOk(use, p, k, tab[p][k]);
    }

    /** walk without alloc, and the entry it leads to: the lookup in the flat map. */
    method Lookup(t: nat, a: nat) returns (found: bool, e: Pte)
      requires Valid() && IsRoot(use, t) && a < MAXVA
      modifies this`tab, this`data, this`free, this`use
      ensures Valid() && tab == old(tab) && Now() == old(Now())
      ensures (found && e.v) <==> At(t, Vpn(a)) in flat
      ensures found && e.v ==> e == flat[At(t, Vpn(a))] && Leafy(e) && e.ppn != 0
    {
      var p, k;
      e := ZERO;
      found, p, k := Walk(t, a, false);
      if found {
        e := GetLeaf(t, Vpn(a), p, k);
      }
    }

    /** One round of mappages: the entry of page v is written, unless a table page was missing
        and memory has run out. */
    method MapOne(t: nat, a: nat, e: Pte, ghost v: nat) returns (ok: bool)
      requires Valid() && IsRoot(use, t) && a < MAXVA && e.v && Leafy(e) && e.ppn != 0
      requires a == v * PGSIZE && At(t, v) !in flat
      modifies this`tab, this`data, this`free, this`use, this`flat
      ensures Valid() && OnlyTables(old(use), old(free), use, free, t) && data == old(data)
      ensures flat == if ok then Put(old(flat), t, v, e) else old(flat)
      ensures !ok ==> free == {}
      ensures ok ==> Spent(old(use), old(free), use, free, t, Lacking(old(use), t, v, 1))
      ensures ok <==> |old(free)| >= |Lacking(old(use), t, v, 1)|
    {
      var p, k;
      VpnShift(0, v);
      ok, p, k := Walk(t, a, true);
      if ok {
        var before := GetLeaf(t, Vpn(a), p, k);
        assert !before.v;
        Open();
        assert forall q: nat :: q in use ==> FrameOk(use, flat, q);
        SetLeaf(t, v, p, k, e);
      }
    }

    /** The same round when n of k pages from v on have been mapped since the state (flat0, use0, free0). */
    method MapNext(t: nat, a: nat, ppn: nat, perm: Perm, ghost v: nat, ghost base: nat, ghost n: nat, ghost k: nat, ghost flat0: Flat, ghost use0: Uses, ghost free0: set<nat>)
      returns (ok: bool)
      requires Valid() && IsRoot(use, t) && a < MAXVA && MapsPage(perm) && a == (v + n) * PGSIZE && At(t, v + n) !in flat0
      requires base > 0 && ppn == base + n && n < k
      requires Mapped(flat0, flat, t, v, n, base, perm) && OnlyTables(use0, free0, use, free, t)
      requires Spent(use0, free0, use, free, t, Lacking(use0, t, v, n))
      modifies this`tab, this`data, this`free, this`use, this`flat
      ensures Valid() && OnlyTables(use0, free0, use, free, t) && data == old(data) && IsRoot(use, t)
      ensures ok ==> Mapped(flat0, flat, t, v, n + 1, base, perm) && Spent(use0, free0, use, free, t, Lacking(use0, t, v, n + 1))
      ensures !ok ==> free == {} && Mapped(flat0, flat, t, v, n, base, perm) && |free0| < |Lacking(use0, t, v, k)|
    {
      MappedStep(flat0, flat, t, v, n, base, perm);
      ok := MapOne(t, a, MakePte(ppn, perm), v + n);
      assert OnlyTables(use0, free0, use, free, t) by {
        MoreTables(use0, free0, old(use), old(free), use, free, t);
      }
      if ok {
        assert Spent(use0, free0, use, free, t, Lacking(use0, t, v, n + 1)) by {
          SpentStep(use0, free0, old(use), old(free), use, free, t, v, n);
        }
      } else {
        assert |free0| < |Lacking(use0, t, v, k)| by {
          CannotPay(use0, free0, old(use), old(free), t, v, n, k);
        }
      }
    }

    /** mappages (vm.c:203-222): the first n pages of the range are mapped, all of them exactly
        when there are as many free pages as the range lacks tables. */
    method Mappages(t: nat, va: nat, size: nat, pa: nat, perm: Perm) returns (ok: bool, ghost n: nat)
      requires Valid() && IsRoot(use, t) && size > 0 && va + size <= MAXVA && MapsPage(perm) && pa >= PGSIZE
      requires forall v: nat :: Vpn(va) <= v <= Vpn(va + size - 1) ==> At(t, v) !in flat
      modifies this`tab, this`data, this`free, this`use, this`flat
      ensures Valid() && OnlyTables(old(use), old(free), use, free, t) && data == old(data)
      ensures Mapped(old(flat), flat, t, Vpn(va), n, Vpn(pa), perm)
      ensures ok ==> n == Vpn(va + size - 1) - Vpn(va) + 1
      ensures !ok ==> free == {} && n <= Vpn(va + size - 1) - Vpn(va)
      ensures Vpn(va) <= Vpn(va + size - 1)
      ensures ok <==> |old(free)| >= |Lacking(old(use), t, Vpn(va), Vpn(va + size - 1) - Vpn(va) + 1)|
      ensures ok ==> Spent(old(use), old(free), use, free, t, Lacking(old(use), t, Vpn(va), n))
    {
      FirstAndLast(va, size, pa);
      ok, n := MapRange(t, PgRoundDown(va), PgRoundDown(va + size - 1), pa, perm, Vpn(va), Vpn(va + size - 1) - Vpn(va) + 1);
    }

    /** Its loop, over the k pages from page v on. */
    method MapRange(t: nat, first: nat, last: nat, pa: nat, perm: Perm, ghost v: nat, ghost k: nat) returns (ok: bool, ghost n: nat)
      requires Valid() && IsRoot(use, t) && MapsPage(perm) && pa >= PGSIZE && k > 0
      requires first == v * PGSIZE && last == (v + k - 1) * PGSIZE < MAXVA
      requires forall w: nat :: v <= w < v + k ==> At(t, w) !in flat
      modifies this`tab, this`data, this`free, this`use, this`flat
      ensures Valid() && OnlyTables(old(use), old(free), use, free, t) && data == old(data)
      ensures Mapped(old(flat), flat, t, v, n, Vpn(pa), perm)
      ensures ok ==> n == k && Spent(old(use), old(free), use, free, t, Lacking(old(use), t, v, n)) && |old(free)| >= |Lacking(old(use), t, v, n)|
      ensures !ok ==> n < k && free == {} && |old(free)| < |Lacking(old(use), t, v, k)|
    {
      var a, pp := first, pa;
      ghost var base := Vpn(pa);
      n := 0;
      SpentNone(use, free, t, v);
      while true
        invariant a == (v + n) * PGSIZE && pp == pa + n * PGSIZE && n < k
        invariant Valid() && OnlyTables(old(use), old(free), use, free, t) && data == old(data) && IsRoot(use, t)
        invariant Mapped(old(flat), flat, t, v, n, base, perm) && Spent(old(use), old(free), use, free, t, Lacking(old(use), t, v, n))
        decreases k - n
      {
        VpnShift(pa, n);
        ok := MapNext(t, a, Vpn(pp), perm, v, base, n, k, old(flat), old(use), old(free));
        if !ok {
          return;
        }
        n := n + 1;
        if a == last {
          break;
        }
        a, pp := a + PGSIZE, pp + PGSIZE;
      }
      SpentSize(old(use), old(free), use, free, t, Lacking(old(use), t, v, n));
      assert n == k;
    }

    /** Give a page that is no table page another such use. */
    ghost method Reuse(p: nat, u: Use)
      requires Valid() && p in use && !IsTable(use[p]) && !IsTable(u)
      requires u.Frame? ==> At(u.t, u.v) in flat && flat[At(u.t, u.v)].ppn == p
      modifies this`use
      ensures Valid() && use == old(use)[p := u]
    {
      Open();
      OtherSound(tab, data, data, free, free, use, use[p := u], flat, p);
      use := use[p := u];
    }

    /** One round of uvmunmap without freeing: the entry of page v is cleared. */
    method UnmapOne(t: nat, a: nat, ghost v: nat)
      requires Valid() && IsRoot(use, t) && a < MAXVA && a == v * PGSIZE && At(t, v) in flat
      requires forall q: nat :: q in use ==> use[q] != Frame(t, v)
      modifies this`tab, this`data, this`free, this`use, this`flat
      ensures Valid() && data == old(data) && use == old(use) && free == old(free)
      ensures flat == Put(old(flat), t, v, ZERO)
    {
      VpnShift(0, v);
      var ok, p, k := Walk(t, a, false);
      SetLeaf(t, v, p, k, ZERO);
    }

    /** One round of uvmunmap with freeing. */
    method FreeOne(t: nat, a: nat, ghost v: nat)
      requires Valid() && IsRoot(use, t) && a < MAXVA && a == v * PGSIZE && Backed(use, flat, t, v, 1)
      modifies this`tab, this`data, this`free, this`use, this`flat
      ensures Valid() && flat == Put(old(flat), t, v, ZERO)
      ensures var p := old(flat)[At(t, v)].ppn;
              use == old(use) - {p} && data == old(data) - {p} && free == old(free) + {p} && p in old(use) && old(use)[p] == Frame(t, v)
    {
      Open();
      VpnShift(0, v);
      assert At(t, v) in flat;
      var ok, p, k := Walk(t, a, false);
      var e := GetLeaf(t, Vpn(a), p, k);
      assert FrameOk(use, flat, e.ppn);
      Kfree(e.ppn);
      SetLeaf(t, v, p, k, ZERO);
    }

    /** The same round when n pages from v on have been freed since the state (flat0, use0, free0). */
    method FreeNext(t: nat, a: nat, ghost v: nat, ghost n: nat, ghost flat0: Flat, ghost use0: Uses, ghost free0: set<nat>, ghost data0: Bytes)
      requires Valid() && IsRoot(use, t) && a < MAXVA && a == (v + n) * PGSIZE && Backed(use, flat, t, v + n, 1)
      requires Unmapped(flat0, flat, t, v, n)
      requires use == use0 - Frames(use0, t, v, n) && free == free0 + Frames(use0, t, v, n) && data == data0 - Frames(use0, t, v, n)
      modifies this`tab, this`data, this`free, this`use, this`flat
      ensures Valid() && Unmapped(flat0, flat, t, v, n + 1)
      ensures use == use0 - Frames(use0, t, v, n + 1) && free == free0 + Frames(use0, t, v, n + 1) && data == data0 - Frames(use0, t, v, n + 1)
    {
      Open();
      ghost var p := flat[At(t, v + n)].ppn;
      UnmappedStep(flat0, flat, t, v, n);
      FramesStep(use0, flat0, use, flat, t, v, n, p);
      FreeOne(t, a, v + n);
    }

    /** uvmunmap without freeing (vm.c:229-250): the range is gone, nothing else changed. */
    method UvmunmapKeep(t: nat, va: nat, npages: nat)
      requires Valid() && IsRoot(use, t) && va % PGSIZE == 0 && va + npages * PGSIZE <= MAXVA
      requires forall v: nat :: Vpn(va) <= v < Vpn(va) + npages ==> At(t, v) in flat
      requires forall q: nat :: q in use && use[q].Frame? && use[q].t == t ==> !(Vpn(va) <= use[q].v < Vpn(va) + npages)
      modifies this`tab, this`data, this`free, this`use, this`flat
      ensures Valid() && data == old(data) && use == old(use) && free == old(free)
      ensures Unmapped(old(flat), flat, t, Vpn(va), npages)
    {
      var a := va;
      ghost var v, n := Vpn(va), 0;
      while a < va + npages * PGSIZE
        invariant a == (v + n) * PGSIZE && va == v * PGSIZE && n <= npages
        invariant Valid() && data == old(data) && use == old(use) && free == old(free)
        invariant Unmapped(old(flat), flat, t, v, n)
        decreases npages - n
      {
        UnmappedStep(old(flat), flat, t, v, n);
        UnmapOne(t, a, v + n);
        a, n := a + PGSIZE, n + 1;
      }
    }

    /** uvmunmap with freeing: the range is gone, and exactly its frames were freed. */
    method UvmunmapFree(t: nat, va: nat, npages: nat)
      requires Valid() && IsRoot(use, t) && va % PGSIZE == 0 && va + npages * PGSIZE <= MAXVA
      requires Backed(use, flat, t, Vpn(va), npages)
      modifies this`tab, this`data, this`free, this`use, this`flat
      ensures Valid() && Shrunk(old(Now()), Now(), t, Vpn(va), npages)
    {
      var a := va;
      ghost var v, n := Vpn(va), 0;
      while a < va + npages * PGSIZE
        invariant a == (v + n) * PGSIZE && va == v * PGSIZE && n <= npages
        invariant Valid() && IsRoot(use, t) && Unmapped(old(flat), flat, t, v, n)
        invariant use == old(use) - Frames(old(use), t, v, n) && free == old(free) + Frames(old(use), t, v, n)
        invariant data == old(data) - Frames(old(use), t, v, n)
        decreases npages - n
      {
        StillBacked(old(use), old(flat), use, flat, t, v, n, npages);
        FreeNext(t, a, v, n, old(flat), old(use), old(free), old(data));
        a, n := a + PGSIZE, n + 1;
      }
    }

    /** uvmcreate (vm.c:254-263): a table with no mapping. */
    method Uvmcreate() returns (t: nat)
      requires Valid()
      modifies this`tab, this`free, this`use
      ensures Valid()
      ensures t == 0 <==> old(free) == {}
      ensures t == 0 ==> tab == old(tab) && free == old(free) && use == old(use)
      ensures t != 0 ==> t in old(free) && free == old(free) - {t} && t !in old(use) && use == old(use)[t := Root]
      ensures forall k: At :: k in flat && t != 0 ==> k.t != t
    {
      Open();
      if free == {} {
        return 0;
      }
      t :| t in free;
      RootSound(tab, data, free, use, flat, t);
      free := free - {t};
      tab := tab[t := EMPTY];
      use := use[t := Root];
    }

    /** freewalk, and freeallocatewalk when leaves are let alone (vm.c:384-425).  The tables at
        and below p are freed, each once: kfree is called on pages in use only.  freewalk panics,
        here `ok` is false, exactly when it would meet a leaf. */
    method FreeTree(p: nat, leafPanics: bool, ghost tab0: Tables, ghost use0: Uses) returns (ok: bool)
      requires WellFormed(tab0, use0) && p in tab0 && p !in free
      requires Agree(tab, tab0, Below(use0, p)) && Below(use0, p) !! free
      modifies this`tab, this`free
      ensures ok <==> (leafPanics ==> NoLeaves(tab0, use0, p))
      ensures ok ==> tab == old(tab) - Below(use0, p) && free == old(free) + Below(use0, p)
      decreases Height(use0, p)
    {
      var i := 0;
      while i < 512
        invariant 0 <= i <= 512
        invariant p in tab && |tab[p]| == 512 && forall k: nat :: i <= k < 512 ==> tab[p][k] == tab0[p][k]
        invariant Without(old(tab), tab, Under(use0, p, i), p)
        invariant free == old(free) + Under(use0, p, i)
        invariant leafPanics ==> NoLeavesYet(tab0, use0, p, i)
      {
        var e := tab[p][i];
        UnderStep(tab0, use0, p, i);
        if e.v && !Leafy(e) {
          ChildOfTree(old(tab), tab, tab0, use0, p, i);
          WithoutMore(old(tab), tab, Under(use0, p, i), Below(use0, e.ppn), p, i);
          ok := FreeTree(e.ppn, leafPanics, tab0, use0);
          if !ok {
            return;
          }
          tab := WriteEntry(tab, p, i, ZERO);
        } else if e.v && leafPanics {
          return false;
        }
        i := i + 1;
      }
      UnderIsBelow(use0, p);
      tab := tab - {p};
      free := free + {p};
      ok := true;
    }

    /** Free the whole table t: its table pages are freed and nothing else is.  With
        `leafPanics` this is freewalk at a root, which panics exactly when t still maps a page;
        else kvmfree (vm.c:430-433). */
    method FreeTable(t: nat, leafPanics: bool) returns (ok: bool)
      requires Valid() && IsRoot(use, t)
      requires !leafPanics ==> forall p: nat :: p in use && use[p].Frame? ==> use[p].t != t
      modifies this`tab, this`free, this`use, this`flat
      ensures ok <==> (leafPanics ==> forall k: At :: k in old(flat) ==> k.t != t)
      ensures ok ==> Valid() && data == old(data) && Dropped(old(flat), flat, t)
      ensures ok ==> use == old(use) - Below(old(use), t) && free == old(free) + Below(old(use), t)
    {
      ghost var flat' := map k | k in flat && k.t != t :: flat[k];
      TableFacts(t, leafPanics, flat');
      ok := FreeTree(t, leafPanics, tab, use);
      if ok {
        use := use - Below(use, t);
        flat := flat';
      }
    }

    /** What freeing table t comes to. */
    lemma TableFacts(t: nat, leafPanics: bool, flat': Flat)
      requires Valid() && IsRoot(use, t) && Dropped(flat, flat', t)
      requires !leafPanics ==> forall p: nat :: p in use && use[p].Frame? ==> use[p].t != t
      ensures WellFormed(tab, use) && t in tab && t !in free && Below(use, t) !! free && Agree(tab, tab, Below(use, t))
      ensures NoLeaves(tab, use, t) <==> forall k: At :: k in flat ==> k.t != t
      ensures (leafPanics ==> NoLeaves(tab, use, t)) ==>
                Sound(tab - Below(use, t), data, free + Below(use, t), use - Below(use, t), flat')
    {
      Open();
      if k: At :| k in flat && k.t == t {
        MappedHasLeaf(tab, use, flat, k);
      } else {
        NothingMapped(tab, use, flat, t);
      }
      if leafPanics ==> NoLeaves(tab, use, t) {
        forall p: nat | p in use && use[p].Frame? ensures use[p].t != t {
          assert FrameOk(use, flat, p);
        }
        GoneSound(tab, data, free, use, flat, flat', t);
      }
    }
  }

  /** The first and the last page of a range of addresses. */
  lemma FirstAndLast(va: nat, size: nat, pa: nat)
    requires 0 < size && va + size <= MAXVA && pa >= PGSIZE
    ensures PgRoundDown(va) == Vpn(va) * PGSIZE && PgRoundDown(va + size - 1) == Vpn(va + size - 1) * PGSIZE < MAXVA
    ensures Vpn(va) <= Vpn(va + size - 1) && Vpn(pa) > 0
  {
  }

  /** Only one page is the frame of a place. */
  lemma OwnFrame(use: Uses, flat: Flat, t: nat, v: nat, p: nat)
    requires forall q: nat :: q in use ==> FrameOk(use, flat, q)
    requires At(t, v) in flat && flat[At(t, v)].ppn == p
    ensures forall q: nat :: q in use && use[q] == Frame(t, v) ==> q == p
  {
    forall q: nat | q in use && use[q] == Frame(t, v) ensures q == p {
      assert FrameOk(use, flat, q);
    }
  }

  /** Every entry of the flat map maps a page. */
  lemma LeafyEntry(tab: Tables, use: Uses, flat: Flat, t: nat, v: nat)
    requires WellFormed(tab, use) && Means(tab, use, flat) && At(t, v) in flat
    ensures var e := flat[At(t, v)]; e.v && Leafy(e) && e.ppn != 0
  {
    assert IsRoot(use, t) && MeansAt(tab, flat, t, v);
    PathUses(tab, use, t, v);
    var q := PathOf(v);
    var p := Entry(tab, Entry(tab, t, q.l2).ppn, q.l1).ppn;
    assert EntryOk(use, p, q.l0, tab[p][q.l0]);
  }

  /** A path that breaks off at an inner table maps nothing. */
  lemma MissingPath(tab: Tables, use: Uses, flat: Flat, t: nat, v: nat, p: nat, level: nat)
    requires WellFormed(tab, use) && Means(tab, use, flat) && IsRoot(use, t) && v < NVPN && 1 <= level <= 2 && p in use
    requires if level == 2 then p == t else use[p] == Mid(t, PathOf(v).l2)
    requires !Entry(tab, p, if level == 2 then PathOf(v).l2 else PathOf(v).l1).v
    ensures At(t, v) !in flat
  {
    assert MeansAt(tab, flat, t, v);
    assert BackOk(tab, use, p);
  }
}

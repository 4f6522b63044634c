/**
 The buffer cache's lists in place (bio.c): thirteen circular doubly linked lists over one
 array of buffers, relinked by binit, brelse and the steal of bget, run by one process alone.

 Node n is buffer n for n < nbuf and the head of bucket n - nbuf otherwise.
 */
module BcacheLists {
  import opened Common

  // ---------------------------------------------------------------------------------------
  // Circular lists
  // ---------------------------------------------------------------------------------------

  function Succ(c: seq<nat>, i: nat): nat
    requires i < |c|
  {
    if i + 1 < |c| then c[i + 1] else c[0]
  }

  /** next leads from the i-th node of c to the one after it, and prev leads back. */
  predicate LinkOk(next: seq<nat>, prev: seq<nat>, c: seq<nat>, i: nat)
    requires i < |c|
  {
    c[i] < |next| && Succ(c, i) < |prev| && next[c[i]] == Succ(c, i) && prev[Succ(c, i)] == c[i]
  }

  /** c, taken as a circle, is linked both ways, and no node comes twice. */
  ghost predicate Cycle(next: seq<nat>, prev: seq<nat>, c: seq<nat>) {
    && |c| > 0 && |next| == |prev|
    && (forall i: nat :: i < |c| ==> LinkOk(next, prev, c, i))
    && (forall i: nat, j: nat :: i < j < |c| ==> c[i] != c[j])
  }

  /** Making the neighbours of a node point past it takes exactly that node out of the circle. */
  lemma UnlinkCycle(next: seq<nat>, prev: seq<nat>, c: seq<nat>, i: nat)
    requires Cycle(next, prev, c) && 0 < i < |c|
    ensures c[i] < |next| && next[c[i]] < |prev| && prev[c[i]] < |next|
    ensures var b := c[i]; Cycle(next[prev[b] := next[b]], prev[next[b] := prev[b]], c[..i] + c[i + 1..])
  {
    var b := c[i];
    assert LinkOk(next, prev, c, i) && LinkOk(next, prev, c, i - 1);
    var p, s := prev[b], next[b];
    assert p == c[i - 1] && s == Succ(c, i);
    assert p < |next| && s < |prev|;
    var next', prev', c' := next[p := s], prev[s := p], c[..i] + c[i + 1..];
    forall j: nat | j < |c'| ensures LinkOk(next', prev', c', j) {
      if j < i - 1 {
        assert LinkOk(next, prev, c, j);
      } else if j >= i {
        assert LinkOk(next, prev, c, j + 1);
      }
    }
  }

  /** Making a node point to the head and to the head's successor, and these to it, puts it right after
      the head. */
  lemma LinkCycle(next: seq<nat>, prev: seq<nat>, c: seq<nat>, b: nat)
    requires Cycle(next, prev, c) && b < |next| && b !in c
    ensures c[0] < |next| && next[c[0]] < |prev|
    ensures var h, x := c[0], next[c[0]];
            Cycle(next[b := x][h := b], prev[b := h][x := b], [h, b] + c[1..])
  {
    assert LinkOk(next, prev, c, 0);
    var h, x := c[0], next[c[0]];
    var next', prev', c' := next[b := x][h := b], prev[b := h][x := b], [h, b] + c[1..];
    forall j: nat | j < |c'| ensures LinkOk(next', prev', c', j) {
      if j >= 2 {
        assert LinkOk(next, prev, c, j - 1);
      }
    }
    forall i: nat, j: nat | i < j < |c'| ensures c'[i] != c'[j] {
    }
  }

  /** A circle stays when other nodes are written. */
  lemma CycleKept(next: seq<nat>, prev: seq<nat>, next': seq<nat>, prev': seq<nat>, c: seq<nat>)
    requires Cycle(next, prev, c) && |next'| == |next| && |prev'| == |prev|
    requires forall i: nat :: i < |c| && c[i] < |next| ==> next'[c[i]] == next[c[i]] && prev'[c[i]] == prev[c[i]]
    ensures Cycle(next', prev', c)
  {
    forall i: nat | i < |c| ensures LinkOk(next', prev', c, i) {
      assert LinkOk(next, prev, c, i);
      if i + 1 < |c| {
        assert LinkOk(next, prev, c, i + 1);
      } else {
        assert LinkOk(next, prev, c, 0);
      }
    }
  }

  // ---------------------------------------------------------------------------------------
  // All lists
  // ---------------------------------------------------------------------------------------

  /** The links, with histories: the list of each bucket, first buffer first; the bucket whose
      list each buffer is on; and when each was last put at the head of a list. */
  datatype Net = Net(nbuf: nat, next: seq<nat>, prev: seq<nat>, lists: seq<seq<nat>>, home: seq<nat>, stamp: seq<nat>, clock: nat)

  function Circle(net: Net, k: nat): (c: seq<nat>)
    requires k < |net.lists|
  {
    [net.nbuf + k] + net.lists[k]
  }

  /** Buffer at position i of list k belongs there. */
  predicate Member(net: Net, k: nat, i: nat)
    requires k < |net.lists| && i < |net.lists[k]|
  {
    var b := net.lists[k][i]; b < net.nbuf && b < |net.home| && net.home[b] == k
  }

  /** Later in a list means put there earlier. */
  ghost predicate Ordered(stamp: seq<nat>, l: seq<nat>) {
    && (forall i: nat :: i < |l| ==> l[i] < |stamp|)
    && (forall i: nat, j: nat :: i < j < |l| ==> stamp[l[i]] > stamp[l[j]])
  }

  ghost predicate ListOk(net: Net, k: nat)
    requires k < |net.lists|
  {
    && Cycle(net.next, net.prev, Circle(net, k)) && Ordered(net.stamp, net.lists[k])
    && forall i: nat :: i < |net.lists[k]| ==> Member(net, k, i)
  }

  /** Every buffer outside `out` is on exactly one list, and every list is linked and ordered. */
  ghost predicate Sound(net: Net, out: set<nat>) {
    && |net.next| == |net.prev| == net.nbuf + NBUCKETS && |net.lists| == NBUCKETS && |net.home| == |net.stamp| == net.nbuf
    && (forall k: nat :: k < NBUCKETS ==> ListOk(net, k))
    && (forall b: nat :: b < net.nbuf && b !in out ==> net.home[b] < NBUCKETS && b in net.lists[net.home[b]])
    && (forall k: nat, b: nat :: k < NBUCKETS && b in out ==> b !in net.lists[k])
    && (forall b: nat :: b < net.nbuf ==> net.stamp[b] < net.clock)
  }

  /** Different circles have no node in common. */
  lemma CirclesApart(net: Net, k: nat, j: nat, a: nat, b: nat)
    requires k < |net.lists| && j < |net.lists| && ListOk(net, k) && ListOk(net, j) && k != j
    requires a < |Circle(net, k)| && b < |Circle(net, j)|
    ensures Circle(net, k)[a] != Circle(net, j)[b]
  {
    if a > 0 {
      assert Member(net, k, a - 1);
    }
    if b > 0 {
      assert Member(net, j, b - 1);
    }
  }

  /** The buffer at position i of list k taken out. */
  function Unlinked(net: Net, k: nat, i: nat): Net
    requires k < |net.lists| && i < |net.lists[k]| && |net.next| == |net.prev|
    requires var b := net.lists[k][i]; b < |net.next| && net.next[b] < |net.prev| && net.prev[b] < |net.next|
  {
    var b := net.lists[k][i];
    net.(next := net.next[net.prev[b] := net.next[b]], prev := net.prev[net.next[b] := net.prev[b]],
         lists := net.lists[k := net.lists[k][..i] + net.lists[k][i + 1..]])
  }

  /** The neighbours of a buffer are on its circle. */
  lemma Neighbours(net: Net, k: nat, i: nat)
    requires k < |net.lists| && ListOk(net, k) && i < |net.lists[k]|
    ensures var b, c := net.lists[k][i], Circle(net, k);
            && b < |net.next| && net.next[b] < |net.prev| && net.prev[b] < |net.next|
            && net.next[b] in c && net.prev[b] in c && net.next[b] != b && net.prev[b] != b
  {
    var c := Circle(net, k);
    UnlinkCycle(net.next, net.prev, c, i + 1);
    assert LinkOk(net.next, net.prev, c, i + 1) && LinkOk(net.next, net.prev, c, i);
  }

  lemma UnlinkOther(net: Net, k: nat, i: nat, j: nat)
    requires k < |net.lists| && j < |net.lists| && ListOk(net, k) && ListOk(net, j) && k != j && i < |net.lists[k]|
    ensures var b := net.lists[k][i]; b < |net.next| && net.next[b] < |net.prev| && net.prev[b] < |net.next|
    ensures ListOk(Unlinked(net, k, i), j)
  {
    Neighbours(net, k, i);
    var net' := Unlinked(net, k, i);
    var c, d := Circle(net, k), Circle(net, j);
    forall a: nat | a < |d| && d[a] < |net.next| ensures net'.next[d[a]] == net.next[d[a]] && net'.prev[d[a]] == net.prev[d[a]] {
      forall x: nat | x < |c| ensures c[x] != d[a] {
        CirclesApart(net, k, j, x, a);
      }
    }
    CycleKept(net.next, net.prev, net'.next, net'.prev, d);
    forall x: nat | x < |net'.lists[j]| ensures Member(net', j, x) {
      assert Member(net, j, x);
    }
  }

  /** A list without its i-th element: where the others are. */
  lemma Cut(l: seq<nat>, i: nat, x: nat)
    requires i < |l| && x < |l| - 1
    ensures var l' := l[..i] + l[i + 1..]; |l'| == |l| - 1 && l'[x] == (if x < i then l[x] else l[x + 1])
  {
  }

  lemma CutOrdered(stamp: seq<nat>, l: seq<nat>, i: nat)
    requires Ordered(stamp, l) && i < |l|
    ensures Ordered(stamp, l[..i] + l[i + 1..])
  {
    var l' := l[..i] + l[i + 1..];
    forall x: nat | x < |l'| ensures l'[x] < |stamp| {
      Cut(l, i, x);
    }
    forall x: nat, y: nat | x < y < |l'| ensures stamp[l'[x]] > stamp[l'[y]] {
      Cut(l, i, x);
      Cut(l, i, y);
    }
  }

  lemma CircleCut(h: nat, l: seq<nat>, i: nat)
    requires i < |l|
    ensures var c := [h] + l; c[..i + 1] + c[i + 2..] == [h] + (l[..i] + l[i + 1..])
  {
  }

  lemma UnlinkSame(net: Net, k: nat, i: nat)
    requires k < |net.lists| && ListOk(net, k) && i < |net.lists[k]|
    ensures var b := net.lists[k][i]; b < |net.next| && net.next[b] < |net.prev| && net.prev[b] < |net.next|
    ensures ListOk(Unlinked(net, k, i), k)
  {
    Neighbours(net, k, i);
    var net' := Unlinked(net, k, i);
    var c := Circle(net, k);
    UnlinkCycle(net.next, net.prev, c, i + 1);
    CircleCut(net.nbuf + k, net.lists[k], i);
    CutOrdered(net.stamp, net.lists[k], i);
    forall x: nat | x < |net'.lists[k]| ensures Member(net', k, x) {
      Cut(net.lists[k], i, x);
      assert Member(net, k, if x < i then x else x + 1);
    }
  }

  lemma UnlinkSound(net: Net, k: nat, i: nat)
    requires Sound(net, {}) && k < NBUCKETS && i < |net.lists[k]|
    ensures var b := net.lists[k][i]; b < |net.next| && net.next[b] < |net.prev| && net.prev[b] < |net.next|
    ensures Sound(Unlinked(net, k, i), {net.lists[k][i]})
  {
    var b := net.lists[k][i];
    assert ListOk(net, k) && Member(net, k, i);
    UnlinkSame(net, k, i);
    var net' := Unlinked(net, k, i);
    forall j: nat | j < NBUCKETS ensures ListOk(net', j) && b !in net'.lists[j] {
      assert ListOk(net, j);
      if j != k {
        UnlinkOther(net, k, i, j);
        forall x: nat | x < |net.lists[j]| ensures net.lists[j][x] != b {
          assert Member(net, j, x);
        }
      }
    }
    forall x: nat | x < net.nbuf && x != b ensures x in net'.lists[net.home[x]] {
      assert x in net.lists[net.home[x]];
      if net.home[x] == k {
        var a: nat :| a < |net.lists[k]| && net.lists[k][a] == x;
        assert a != i;
        assert net'.lists[k][if a < i then a else a - 1] == x;
      }
    }
  }

  /** Buffer b put at the head of list k. */
  function Linked(net: Net, k: nat, b: nat): Net
    requires k < |net.lists| && b < |net.next| && |net.next| == |net.prev| && b < |net.home| && b < |net.stamp|
    requires net.nbuf + k < |net.next| && net.next[net.nbuf + k] < |net.prev|
  {
    var h := net.nbuf + k;
    var x := net.next[h];
    net.(next := net.next[b := x][h := b], prev := net.prev[b := h][x := b],
         lists := net.lists[k := [b] + net.lists[k]], home := net.home[b := k], stamp := net.stamp[b := net.clock], clock := net.clock + 1)
  }

  /** b is a buffer that is on no list. */
  ghost predicate Loose(net: Net, b: nat) {
    b < net.nbuf && (forall k: nat :: k < |net.lists| ==> b !in net.lists[k])
  }

  lemma LinkSame(net: Net, k: nat, b: nat)
    requires k < |net.lists| && ListOk(net, k) && Loose(net, b) && b < |net.next| && b < |net.home| && b < |net.stamp|
    requires forall a: nat :: a < |net.stamp| ==> net.stamp[a] < net.clock
    ensures net.nbuf + k < |net.next| && net.next[net.nbuf + k] < |net.prev| && ListOk(Linked(net, k, b), k)
  {
    var c := Circle(net, k);
    LinkCycle(net.next, net.prev, c, b);
    var net' := Linked(net, k, b);
    assert [c[0], b] + c[1..] == Circle(net', k);
    var l, l' := net.lists[k], net'.lists[k];
    forall x: nat | x < |l'| ensures Member(net', k, x) && l'[x] < |net'.stamp| {
      if x > 0 {
        assert Member(net, k, x - 1) && l[x - 1] in l;
      }
    }
    forall i: nat, j: nat | i < j < |l'| ensures net'.stamp[l'[i]] > net'.stamp[l'[j]] {
      assert l[j - 1] in l;
      if i > 0 {
        assert l[i - 1] in l;
      }
    }
  }

  lemma LinkOther(net: Net, k: nat, b: nat, j: nat)
    requires k < |net.lists| && j < |net.lists| && ListOk(net, k) && ListOk(net, j) && k != j && Loose(net, b)
    requires b < |net.next| && b < |net.home| && b < |net.stamp|
    ensures net.nbuf + k < |net.next| && net.next[net.nbuf + k] < |net.prev| && ListOk(Linked(net, k, b), j)
  {
    var c, d := Circle(net, k), Circle(net, j);
    LinkCycle(net.next, net.prev, c, b);
    assert LinkOk(net.next, net.prev, c, 0);
    assert Succ(c, 0) in c;
    var net' := Linked(net, k, b);
    forall a: nat | a < |d| ensures d[a] != b && forall x: nat :: x < |c| ==> c[x] != d[a] {
      assert a > 0 ==> d[a] in net.lists[j];
      forall x: nat | x < |c| ensures c[x] != d[a] {
        CirclesApart(net, k, j, x, a);
      }
    }
    CycleKept(net.next, net.prev, net'.next, net'.prev, d);
    forall x: nat | x < |net'.lists[j]| ensures Member(net', j, x) {
      assert Member(net, j, x) && net.lists[j][x] in net.lists[j];
    }
    LinkOrder(net, net', j, b);
  }

  lemma LinkOrder(net: Net, net': Net, j: nat, b: nat)
    requires j < |net.lists| && b !in net.lists[j] && b < |net.stamp| && Ordered(net.stamp, net.lists[j])
    requires net'.stamp == net.stamp[b := net.clock]
    ensures Ordered(net'.stamp, net.lists[j])
  {
    var l := net.lists[j];
    forall x: nat | x < |l| ensures l[x] < |net'.stamp| && net'.stamp[l[x]] == net.stamp[l[x]] {
      assert l[x] in l;
    }
  }

  lemma LinkSound(net: Net, k: nat, b: nat, out: set<nat>)
    requires Sound(net, out) && k < NBUCKETS && b < net.nbuf && b in out
    ensures net.nbuf + k < |net.next| && net.next[net.nbuf + k] < |net.prev|
    ensures Sound(Linked(net, k, b), out - {b})
  {
    assert ListOk(net, k) && Loose(net, b);
    LinkSame(net, k, b);
    var net' := Linked(net, k, b);
    forall j: nat | j < NBUCKETS ensures ListOk(net', j) {
      assert ListOk(net, j);
      if j != k {
        LinkOther(net, k, b, j);
      }
    }
    forall x: nat | x < net.nbuf && x !in out - {b} ensures net'.home[x] < NBUCKETS && x in net'.lists[net'.home[x]] {
      assert x != b ==> x in net.lists[net.home[x]];
    }
  }

  // ---------------------------------------------------------------------------------------
  // The cache
  // ---------------------------------------------------------------------------------------

  datatype Buf = Buf(dev: nat, blockno: nat, valid: bool, refcnt: nat)

  /** Some buffer on list l is keyed (dev, blockno). */
  ghost predicate Cached(bufs: seq<Buf>, l: seq<nat>, dev: nat, blockno: nat) {
    exists i: nat :: i < |l| && l[i] < |bufs| && bufs[l[i]].dev == dev && bufs[l[i]].blockno == blockno
  }

  ghost predicate SomeFree(bufs: seq<Buf>, l: seq<nat>) {
    exists i: nat :: i < |l| && l[i] < |bufs| && bufs[l[i]].refcnt == 0
  }

  /** b is the free buffer of list l that was put at its head the longest time ago. */
  ghost predicate OldestFree(bufs: seq<Buf>, stamp: seq<nat>, l: seq<nat>, b: nat) {
    && b in l && b < |bufs| && b < |stamp| && bufs[b].refcnt == 0
    && forall i: nat :: i < |l| && l[i] < |bufs| && l[i] < |stamp| && bufs[l[i]].refcnt == 0 ==> stamp[b] <= stamp[l[i]]
  }

  ghost function From(b: nat, n: nat): (r: set<nat>)
    ensures forall c: nat :: c in r <==> b <= c < n
    decreases n - b
  {
    if b >= n then {} else {b} + From(b + 1, n)
  }

  /** The bucket the sweep of bget looks at in round t, and what findCount is at the loop test
      after n rounds (bio.c:98-99). */
  function Visits(h: nat, t: nat): nat {
    (h + 1 + t) % NBUCKETS
  }

  function FindCount(h: nat, n: nat): nat {
    if n == 0 then h + 1 else FindCount(h, n - 1) % NBUCKETS + 1
  }

  lemma {:induction false} FindCountIs(h: nat, n: nat)
    requires h < NBUCKETS
    ensures FindCount(h, n) % NBUCKETS == Visits(h, n) && 1 <= FindCount(h, n) <= NBUCKETS
  {
    if n > 0 {
      FindCountIs(h, n - 1);
    }
  }

  lemma VisitsIs(h: nat, t: nat)
    requires h < NBUCKETS && t <= 12
    ensures Visits(h, t) == if h + 1 + t < NBUCKETS then h + 1 + t else h + 1 + t - NBUCKETS
  {
  }

  /** The first twelve rounds look at every other bucket once. */
  lemma SweepVisitsOnce(h: nat, k: nat)
    requires h < NBUCKETS && k < NBUCKETS && k != h
    ensures exists t: nat :: t < 12 && Visits(h, t) == k
    ensures forall t: nat, u: nat :: t < u < 12 ==> Visits(h, t) != Visits(h, u)
  {
    var r: nat := if k > h then k - h - 1 else k + NBUCKETS - h - 1;
    VisitsIs(h, r);
    assert r < 12 && Visits(h, r) == k;
    forall t: nat, u: nat | t < u < 12 ensures Visits(h, t) != Visits(h, u) {
      VisitsIs(h, t);
      VisitsIs(h, u);
    }
  }

  /** Twelve rounds without a free buffer, and none at home, mean that there is none. */
  lemma AllSwept(lists: seq<seq<nat>>, bufs: seq<Buf>, h: nat, n: nat)
    requires |lists| == NBUCKETS && h < NBUCKETS && !SomeFree(bufs, lists[h]) && n >= 12
    requires forall u: nat :: u < n ==> !SomeFree(bufs, lists[Visits(h, u)])
    ensures forall k: nat :: k < |lists| ==> !SomeFree(bufs, lists[k])
  {
    forall k: nat | k < |lists| ensures !SomeFree(bufs, lists[k]) {
      if k != h {
        SweepVisitsOnce(h, k);
        var t: nat :| t < 12 && Visits(h, t) == k;
      }
    }
  }

  /** Where the loop of the sweep is: at its test with findCount f, left with a buffer of bucket k,
      or left at the test. */
  datatype Sweep = At(f: nat) | Took(k: nat) | Over

  ghost predicate NoneFree(bufs: seq<Buf>, lists: seq<seq<nat>>) {
    forall k: nat :: k < |lists| ==> !SomeFree(bufs, lists[k])
  }

  /** One round (bio.c:98-125) by a process alone, which holds no lock but that of its home bucket h. */
  ghost function Round(bufs: seq<Buf>, lists: seq<seq<nat>>, h: nat, f: nat): Sweep
    requires |lists| == NBUCKETS
  {
    var k := f % NBUCKETS;
    if f == h then Over else if k != h && SomeFree(bufs, lists[k]) then Took(k) else At(k + 1)
  }

  /** Where it is after n rounds. */
  ghost function SweepAfter(bufs: seq<Buf>, lists: seq<seq<nat>>, h: nat, n: nat): Sweep
    requires |lists| == NBUCKETS
  {
    if n == 0 then At(h + 1)
    else
      var s := SweepAfter(bufs, lists, h, n - 1);
      if s.At? then Round(bufs, lists, h, s.f) else s
  }

  /** A sweep that has ended stays ended. */
  lemma {:induction false} SweepStays(bufs: seq<Buf>, lists: seq<seq<nat>>, h: nat, n: nat, m: nat)
    requires |lists| == NBUCKETS && n <= m && !SweepAfter(bufs, lists, h, n).At?
    ensures SweepAfter(bufs, lists, h, m) == SweepAfter(bufs, lists, h, n)
  {
    if n < m {
      SweepStays(bufs, lists, h, n, m - 1);
    }
  }

  /** Round u neither ends the sweep nor finds a free buffer. */
  ghost predicate Idles(bufs: seq<Buf>, lists: seq<seq<nat>>, h: nat, u: nat)
    requires |lists| == NBUCKETS
  {
    !SomeFree(bufs, lists[Visits(h, u)]) && FindCount(h, u) != h
  }

  /** While nothing is found and the test holds, findCount runs as `FindCount` says. */
  lemma {:induction false} SweepRuns(bufs: seq<Buf>, lists: seq<seq<nat>>, h: nat, n: nat)
    requires |lists| == NBUCKETS && h < NBUCKETS
    requires forall u: nat :: u < n ==> Idles(bufs, lists, h, u)
    ensures SweepAfter(bufs, lists, h, n) == At(FindCount(h, n))
  {
    if n > 0 {
      SweepRuns(bufs, lists, h, n - 1);
      assert Idles(bufs, lists, h, n - 1);
      RoundFindsNothing(bufs, lists, h, n - 1);
    }
  }

  lemma RoundFindsNothing(bufs: seq<Buf>, lists: seq<seq<nat>>, h: nat, n: nat)
    requires |lists| == NBUCKETS && h < NBUCKETS && !SomeFree(bufs, lists[Visits(h, n)]) && FindCount(h, n) != h
    ensures Round(bufs, lists, h, FindCount(h, n)) == At(FindCount(h, n + 1))
  {
    FindCountIs(h, n);
  }

  /** With home bucket 0 and no free buffer the sweep goes on after any number of rounds. */
  lemma {:induction false} SweepsForEver(bufs: seq<Buf>, lists: seq<seq<nat>>, n: nat)
    requires |lists| == NBUCKETS && NoneFree(bufs, lists)
    ensures SweepAfter(bufs, lists, 0, n).At?
  {
    forall u: nat | u < n ensures Idles(bufs, lists, 0, u) {
      FindCountIs(0, u);
    }
    SweepRuns(bufs, lists, 0, n);
  }

  /** Otherwise it is over within thirteen rounds: with a buffer iff some bucket has a free one. */
  lemma SweepIsOver(bufs: seq<Buf>, lists: seq<seq<nat>>, h: nat) returns (m: nat)
    requires |lists| == NBUCKETS && h < NBUCKETS && !SomeFree(bufs, lists[h]) && (h != 0 || !NoneFree(bufs, lists))
    ensures m <= 13 && (if NoneFree(bufs, lists) then SweepAfter(bufs, lists, h, m) == Over else SweepAfter(bufs, lists, h, m).Took?)
  {
    var n := FirstFree(bufs, lists, h, 12);
    if n == 12 {
      AllSwept(lists, bufs, h, n);
    }
    forall u: nat | u < n ensures Idles(bufs, lists, h, u) {
      TestHolds(h, u);
    }
    SweepRuns(bufs, lists, h, n);
    TestHolds(h, n);
    m := n + 1;
  }

  /** In the first twelve rounds the loop test holds; then it fails, unless h is 0. */
  lemma TestHolds(h: nat, n: nat)
    requires h < NBUCKETS && n <= 12
    ensures n < 12 ==> FindCount(h, n) != h && Visits(h, n) != h
    ensures n == 12 && h != 0 ==> FindCount(h, n) == h
    ensures FindCount(h, n) % NBUCKETS == Visits(h, n)
  {
    FindCountIs(h, n);
    VisitsIs(h, n);
  }

  /** The first of n rounds that finds a free buffer, or n. */
  lemma {:induction false} FirstFree(bufs: seq<Buf>, lists: seq<seq<nat>>, h: nat, n: nat) returns (t: nat)
    requires |lists| == NBUCKETS
    ensures t <= n && (forall u: nat :: u < t ==> !SomeFree(bufs, lists[Visits(h, u)])) && (t < n ==> SomeFree(bufs, lists[Visits(h, t)]))
  {
    if n == 0 {
      t := 0;
    } else {
      t := FirstFree(bufs, lists, h, n - 1);
      if t == n - 1 && !SomeFree(bufs, lists[Visits(h, t)]) {
        t := n;
      }
    }
  }

  /** bget run alone is over after at most n rounds of its sweep. */
  ghost predicate OverWithin(bufs: seq<Buf>, lists: seq<seq<nat>>, dev: nat, blockno: nat, n: nat)
    requires |lists| == NBUCKETS
  {
    var h := blockno % NBUCKETS;
    Cached(bufs, lists[h], dev, blockno) || SomeFree(bufs, lists[h]) || !SweepAfter(bufs, lists, h, n).At?
  }

  /** Thirteen rounds tell. */
  lemma ThirteenRounds(bufs: seq<Buf>, lists: seq<seq<nat>>, dev: nat, blockno: nat, n: nat)
    requires |lists| == NBUCKETS && n >= 13
    ensures OverWithin(bufs, lists, dev, blockno, n)
            <==> blockno % NBUCKETS != 0 || Cached(bufs, lists[blockno % NBUCKETS], dev, blockno) || !NoneFree(bufs, lists)
  {
    var h := blockno % NBUCKETS;
    if h == 0 && NoneFree(bufs, lists) {
      SweepsForEver(bufs, lists, n);
    } else if !SomeFree(bufs, lists[h]) {
      var m := SweepIsOver(bufs, lists, h);
      SweepStays(bufs, lists, h, m, n);
    }
  }

  /** bget run alone ends iff its home bucket is not 0, or the block is cached, or some buffer is free. */
  lemma BgetEndsIff(bufs: seq<Buf>, lists: seq<seq<nat>>, dev: nat, blockno: nat)
    requires |lists| == NBUCKETS
    ensures (exists n: nat :: OverWithin(bufs, lists, dev, blockno, n))
            <==> blockno % NBUCKETS != 0 || Cached(bufs, lists[blockno % NBUCKETS], dev, blockno) || !NoneFree(bufs, lists)
  {
    var h := blockno % NBUCKETS;
    if h == 0 && !Cached(bufs, lists[h], dev, blockno) && NoneFree(bufs, lists) {
      forall n: nat ensures !OverWithin(bufs, lists, dev, blockno, n) {
        SweepsForEver(bufs, lists, n);
      }
    } else {
      var n: nat := 13;
      ThirteenRounds(bufs, lists, dev, blockno, n);
      assert OverWithin(bufs, lists, dev, blockno, n);
    }
  }

  /** b comes from the bucket of round t, the first one of the sweep with a free buffer, and is the
      oldest free buffer there. */
  ghost predicate StolenFrom(net: Net, bufs: seq<Buf>, h: nat, b: nat, t: nat) {
    && |net.lists| == NBUCKETS && t < 12 && OldestFree(bufs, net.stamp, net.lists[Visits(h, t)], b)
    && forall u: nat :: u < t ==> !SomeFree(bufs, net.lists[Visits(h, u)])
  }

  /** Which buffer bget returns, and what it does to it and to the lists. */
  ghost predicate Got(net: Net, bufs: seq<Buf>, net': Net, bufs': seq<Buf>, dev: nat, blockno: nat, b: nat) {
    var h := blockno % NBUCKETS;
    && |net.lists| == NBUCKETS == |net'.lists| && b < |bufs| && b < |net.stamp|
    && if Cached(bufs, net.lists[h], dev, blockno) then
         net' == net && b in net.lists[h] && bufs[b].dev == dev && bufs[b].blockno == blockno && bufs' == bufs[b := bufs[b].(refcnt := bufs[b].refcnt + 1)]
       else
         && bufs' == bufs[b := Buf(dev, blockno, false, 1)]
         && if SomeFree(bufs, net.lists[h]) then net' == net && OldestFree(bufs, net.stamp, net.lists[h], b)
            else
              && (exists t: nat :: StolenFrom(net, bufs, h, b, t))
              && |net'.lists[h]| > 0 && net'.lists[h][0] == b && net'.stamp == net.stamp[b := net.clock]
              && (forall j: nat, c: nat :: j < NBUCKETS && c < net.nbuf && c != b ==> (c in net'.lists[j] <==> c in net.lists[j]))
  }

  /** How far bget got in the rounds it was given. */
  datatype BgetEnd = Returned(b: nat) | NoBuffers | Sweeping

  /** The loop test fails only when all other buckets have been looked at, and never for bucket 0. */
  lemma ExitIsLate(lists: seq<seq<nat>>, bufs: seq<Buf>, h: nat, n: nat)
    requires |lists| == NBUCKETS && h < NBUCKETS && !SomeFree(bufs, lists[h]) && FindCount(h, n) == h
    requires forall u: nat :: u < n ==> !SomeFree(bufs, lists[Visits(h, u)])
    ensures NoneFree(bufs, lists) && h != 0
  {
    FindCountIs(h, n);
    if n < 12 {
      VisitsIs(h, n);
    } else {
      AllSwept(lists, bufs, h, n);
    }
  }

  /** A free buffer is found in the first twelve rounds. */
  lemma FoundIsEarly(lists: seq<seq<nat>>, bufs: seq<Buf>, h: nat, n: nat)
    requires |lists| == NBUCKETS && h < NBUCKETS && !SomeFree(bufs, lists[h]) && SomeFree(bufs, lists[Visits(h, n)])
    requires forall u: nat :: u < n ==> !SomeFree(bufs, lists[Visits(h, u)])
    ensures n < 12
  {
    if n >= 12 {
      AllSwept(lists, bufs, h, n);
    }
  }

  /** A buffer on list k has k as its bucket. */
  lemma OnHome(net: Net, k: nat, b: nat)
    requires Sound(net, {}) && k < NBUCKETS && b < net.nbuf && b in net.lists[k]
    ensures net.home[b] == k
  {
    var i: nat :| i < |net.lists[k]| && net.lists[k][i] == b;
    assert ListOk(net, k) && Member(net, k, i);
  }

  class Bcache {
    const nbuf: nat
    var next: seq<nat>
    var prev: seq<nat>
    var bufs: seq<Buf>

    ghost var lists: seq<seq<nat>>
    ghost var home: seq<nat>
    ghost var stamp: seq<nat>
    ghost var clock: nat

    ghost function Now(): Net
      reads this
    {
      Net(nbuf, next, prev, lists, home, stamp, clock)
    }

    ghost predicate Valid()
      reads this
    {
      |bufs| == nbuf && Sound(Now(), {})
    }

    /** The neighbours of b are made to point past it (bio.c:107-108, 169-170). */
    method Unlink(b: nat, ghost k: nat, ghost i: nat)
      requires Sound(Now(), {}) && k < NBUCKETS && i < |lists[k]| && lists[k][i] == b
      modifies this`next, this`prev, this`lists
      ensures Sound(Now(), {b}) && lists == old(lists)[k := old(lists)[k][..i] + old(lists)[k][i + 1..]]
    {
      UnlinkSound(Now(), k, i);
      ghost var net := Unlinked(Now(), k, i);
      assert ListOk(Now(), k);
      Neighbours(Now(), k, i);
      prev := prev[next[b] := prev[b]];
      next := next[prev[b] := next[b]];
      lists := net.lists;
      assert Now() == net;
    }

    /** b is put between the head of list k and its successor (bio.c:109-112, 171-174). */
    method LinkFront(b: nat, k: nat, ghost out: set<nat>)
      requires Sound(Now(), out) && k < NBUCKETS && b < nbuf && b in out
      modifies this`next, this`prev, this`lists, this`home, this`stamp, this`clock
      ensures Sound(Now(), out - {b}) && lists == old(lists)[k := [b] + old(lists)[k]]
      ensures home == old(home)[b := k] && stamp == old(stamp)[b := old(clock)] && clock == old(clock) + 1
    {
      LinkSound(Now(), k, b, out);
      ghost var net := Linked(Now(), k, b);
      var h := nbuf + k;
      next := next[b := next[h]];
      prev := prev[b := h];
      prev := prev[next[h] := b];
      next := next[h := b];
      lists, home, stamp, clock := net.lists, net.home, net.stamp, net.clock;
      assert Now() == net;
    }

    /** Unlink b and put it at the head of list k (bio.c:107-112, 169-174). */
    method MoveFront(b: nat, k: nat)
      requires Valid() && k < NBUCKETS && b < nbuf
      modifies this`next, this`prev, this`lists, this`home, this`stamp, this`clock
      ensures Valid() && home == old(home)[b := k] && stamp == old(stamp)[b := old(clock)] && clock == old(clock) + 1
      ensures |lists[k]| > 0 && lists[k][0] == b
      ensures forall j: nat, c: nat :: j < NBUCKETS && c < nbuf && c != b ==> (c in lists[j] <==> c in old(lists)[j])
    {
      assert b in lists[home[b]];
      ghost var i: nat :| i < |lists[home[b]]| && lists[home[b]][i] == b;
      Unlink(b, home[b], i);
      LinkFront(b, k, {b});
      assert {b} - {b} == {};
    }

    /** Is the block on list k (bio.c:73-80)? */
    method FindCached(k: nat, dev: nat, blockno: nat) returns (r: Option<nat>)
      requires Valid() && k < NBUCKETS
      ensures r.Some? <==> Cached(bufs, lists[k], dev, blockno)
      ensures r.Some? ==> r.value < nbuf && r.value in lists[k] && bufs[r.value].dev == dev && bufs[r.value].blockno == blockno
    {
      ghost var i, l, c := 0, lists[k], Circle(Now(), k);
      assert ListOk(Now(), k) && LinkOk(next, prev, c, 0);
      BuffersOnly(Now(), k);
      var b := next[nbuf + k];
      while b != nbuf + k
        invariant i <= |l| && b == Succ(c, i)
        invariant forall j: nat :: j < i ==> l[j] < |bufs| && !(bufs[l[j]].dev == dev && bufs[l[j]].blockno == blockno)
        decreases |l| - i
      {
        assert Member(Now(), k, i);
        if bufs[b].dev == dev && bufs[b].blockno == blockno {
          return Some(b);
        }
        assert LinkOk(next, prev, c, i + 1);
        b := next[b];
        i := i + 1;
      }
      r := None;
    }

    /** The free buffer of list k that was put there first, from the end of the list (bio.c:84-85, 104-105). */
    method FindFree(k: nat) returns (r: Option<nat>)
      requires Valid() && k < NBUCKETS
      ensures r.Some? <==> SomeFree(bufs, lists[k])
      ensures r.Some? ==> r.value < nbuf && OldestFree(bufs, stamp, lists[k], r.value)
    {
      ghost var l, c := lists[k], Circle(Now(), k);
      ghost var i := |l|;
      assert ListOk(Now(), k) && LinkOk(next, prev, c, |l|);
      BuffersOnly(Now(), k);
      var b := prev[nbuf + k];
      while b != nbuf + k
        invariant 0 <= i <= |l| && b == c[i]
        invariant forall j: nat :: i <= j < |l| ==> l[j] < |bufs| && bufs[l[j]].refcnt != 0
        decreases i
      {
        assert Member(Now(), k, i - 1);
        if bufs[b].refcnt == 0 {
          return Some(b);
        }
        assert LinkOk(next, prev, c, i - 1);
        b := prev[b];
        i := i - 1;
      }
      r := None;
    }

    /** brelse (bio.c:156-177) without its locks. */
    method Brelse(b: nat)
      requires Valid() && b < nbuf && bufs[b].refcnt > 0 && home[b] == bufs[b].blockno % NBUCKETS
      modifies this
      ensures Valid() && bufs == old(bufs)[b := old(bufs)[b].(refcnt := old(bufs)[b].refcnt - 1)] && home == old(home)
      ensures bufs[b].refcnt > 0 ==> Now() == old(Now())
      ensures bufs[b].refcnt == 0 ==> lists[home[b]][0] == b && stamp == old(stamp)[b := old(clock)] && clock == old(clock) + 1
    {
      var k := bufs[b].blockno % NBUCKETS;
      bufs := bufs[b := bufs[b].(refcnt := bufs[b].refcnt - 1)];
      if bufs[b].refcnt == 0 {
        MoveFront(b, k);
      }
    }

    /** bget (bio.c:64-128) without its locks, run alone for at most `rounds` rounds of its sweep. */
    method Bget(dev: nat, blockno: nat, rounds: nat) returns (r: BgetEnd)
      requires Valid()
      modifies this
      ensures Valid() && (r.Sweeping? <==> !OverWithin(old(bufs), old(lists), dev, blockno, rounds))
      ensures r.Returned? ==> Cached(old(bufs), old(lists)[blockno % NBUCKETS], dev, blockno) || !NoneFree(old(bufs), old(lists))
      ensures r.NoBuffers? ==> !Cached(old(bufs), old(lists)[blockno % NBUCKETS], dev, blockno) && NoneFree(old(bufs), old(lists)) && blockno % NBUCKETS != 0
      ensures !r.Returned? ==> Now() == old(Now()) && bufs == old(bufs)
      ensures r.Returned? ==> r.b < nbuf && home[r.b] == blockno % NBUCKETS && Got(old(Now()), old(bufs), Now(), bufs, dev, blockno, r.b)
    {
      var k := blockno % NBUCKETS;
      var b := FindCached(k, dev, blockno);
      if b.Some? {
        OnHome(Now(), k, b.value);
        bufs := bufs[b.value := bufs[b.value].(refcnt := bufs[b.value].refcnt + 1)];
        return Returned(b.value);
      }
      b := FindFree(k);
      if b.Some? {
        OnHome(Now(), k, b.value);
        bufs := bufs[b.value := Buf(dev, blockno, false, 1)];
        return Returned(b.value);
      }
      r := Steal(k, dev, blockno, rounds);
    }

    /** Buffer b moves to the home list and is keyed anew (bio.c:107-117). */
    method Take(h: nat, b: nat, dev: nat, blockno: nat, ghost t: nat)
      requires Valid() && h == blockno % NBUCKETS && b < nbuf && StolenFrom(Now(), bufs, h, b, t)
      requires !SomeFree(bufs, lists[h]) && !Cached(bufs, lists[h], dev, blockno)
      modifies this
      ensures Valid() && home[b] == h && Got(old(Now()), old(bufs), Now(), bufs, dev, blockno, b)
    {
      MoveFront(b, h);
      bufs := bufs[b := Buf(dev, blockno, false, 1)];
    }

    /** The sweep over the other buckets (bio.c:98-127); the home lock is the only one held. */
    method Steal(h: nat, dev: nat, blockno: nat, rounds: nat) returns (r: BgetEnd)
      requires Valid() && h == blockno % NBUCKETS && !SomeFree(bufs, lists[h]) && !Cached(bufs, lists[h], dev, blockno)
      modifies this
      ensures Valid() && (r.Sweeping? <==> SweepAfter(old(bufs), old(lists), h, rounds).At?)
      ensures r.Returned? ==> !NoneFree(old(bufs), old(lists))
      ensures r.NoBuffers? ==> NoneFree(old(bufs), old(lists)) && h != 0
      ensures !r.Returned? ==> Now() == old(Now()) && bufs == old(bufs)
      ensures r.Returned? ==> r.b < nbuf && home[r.b] == h && Got(old(Now()), old(bufs), Now(), bufs, dev, blockno, r.b)
    {
      var findCount, n := h + 1, 0;
      while n < rounds
        invariant 0 <= n <= rounds && Valid() && Now() == old(Now()) && bufs == old(bufs)
        invariant findCount == FindCount(h, n) && SweepAfter(bufs, lists, h, n) == At(findCount)
        invariant forall u: nat :: u < n ==> !SomeFree(bufs, lists[Visits(h, u)])
      {
        FindCountIs(h, n);
        if !(findCount != h) {
          SweepStays(bufs, lists, h, n + 1, rounds);
          ExitIsLate(lists, bufs, h, n);
          return NoBuffers;
        }
        findCount := findCount % NBUCKETS;
        if findCount != h {
          var b := FindFree(findCount);
          if b.Some? {
            SweepStays(bufs, lists, h, n + 1, rounds);
            FoundIsEarly(lists, bufs, h, n);
            assert StolenFrom(Now(), bufs, h, b.value, n);
            Take(h, b.value, dev, blockno, n);
            return Returned(b.value);
          }
        }
        findCount := findCount + 1;
        n := n + 1;
      }
      r := Sweeping;
    }

    /** binit (bio.c:39-58): buffer b starts on list b % 13. */
    constructor (nbuf: nat)
      ensures this.nbuf == nbuf && Valid() && (forall b: nat :: b < nbuf ==> home[b] == b % NBUCKETS)
      ensures forall b: nat :: b < nbuf ==> bufs[b] == Buf(0, 0, false, 0)
    {
      this.nbuf := nbuf;
      next := seq(nbuf + NBUCKETS, i => i);
      prev := seq(nbuf + NBUCKETS, i => i);
      bufs := seq(nbuf, _ => Buf(0, 0, false, 0));
      lists := seq(NBUCKETS, _ => []);
      home := seq(nbuf, _ => 0);
      stamp := seq(nbuf, _ => 0);
      clock := 1;
      new;
      ghost var all := From(0, nbuf);
      EmptyNet(Now(), all);
      var b, count := 0, 0;
      while b < nbuf
        invariant 0 <= b <= nbuf && 0 <= count && count % NBUCKETS == b % NBUCKETS
        invariant |bufs| == nbuf && (forall c: nat :: c < nbuf ==> bufs[c] == Buf(0, 0, false, 0))
        invariant Sound(Now(), all) && all == From(b, nbuf)
        invariant forall c: nat :: c < b ==> home[c] == c % NBUCKETS
      {
        count := count % NBUCKETS;
        RoundRobin(b);
        LinkFront(b, count, all);
        all := all - {b};
        b, count := b + 1, count + 1;
      }
      assert all == {};
    }
  }

  lemma RoundRobin(b: nat)
    ensures (b % NBUCKETS + 1) % NBUCKETS == (b + 1) % NBUCKETS
  {
  }

  lemma BuffersOnly(net: Net, k: nat)
    requires k < |net.lists| && ListOk(net, k)
    ensures forall i: nat :: i < |net.lists[k]| ==> net.lists[k][i] < net.nbuf
  {
    forall i: nat | i < |net.lists[k]| ensures net.lists[k][i] < net.nbuf {
      assert Member(net, k, i);
    }
  }

  /** Heads linked to themselves. */
  lemma EmptyNet(net: Net, all: set<nat>)
    requires |net.next| == |net.prev| == net.nbuf + NBUCKETS && |net.lists| == NBUCKETS && |net.home| == |net.stamp| == net.nbuf && net.clock == 1
    requires forall i: nat :: i < net.nbuf + NBUCKETS ==> net.next[i] == i && net.prev[i] == i
    requires (forall k: nat :: k < NBUCKETS ==> net.lists[k] == []) && (forall b: nat :: b < net.nbuf ==> net.stamp[b] == 0)
    requires forall b: nat :: b < net.nbuf ==> b in all
    ensures Sound(net, all)
  {
    forall k: nat | k < NBUCKETS ensures ListOk(net, k) {
      assert LinkOk(net.next, net.prev, Circle(net, k), 0);
    }
  }

  // ---------------------------------------------------------------------------------------
  // A run into the endless sweep
  // ---------------------------------------------------------------------------------------

  ghost function FreeCount(bufs: seq<Buf>): nat {
    if |bufs| == 0 then 0
    else FreeCount(bufs[..|bufs| - 1]) + if bufs[|bufs| - 1].refcnt == 0 then 1 else 0
  }

  lemma {:induction false} FreeCountUpdate(bufs: seq<Buf>, b: nat, x: Buf)
    requires b < |bufs| && bufs[b].refcnt == 0 && x.refcnt > 0
    ensures FreeCount(bufs[b := x]) == FreeCount(bufs) - 1
  {
    var n := |bufs| - 1;
    if b == n {
      assert bufs[b := x][..n] == bufs[..n];
    } else {
      FreeCountUpdate(bufs[..n], b, x);
      assert bufs[b := x][..n] == bufs[..n][b := x];
    }
  }

  lemma {:induction false} FreeCountIs(bufs: seq<Buf>)
    ensures FreeCount(bufs) == 0 <==> forall b: nat :: b < |bufs| ==> bufs[b].refcnt != 0
    ensures (forall b: nat :: b < |bufs| ==> bufs[b].refcnt == 0) ==> FreeCount(bufs) == |bufs|
  {
    if |bufs| > 0 {
      var n := |bufs| - 1;
      FreeCountIs(bufs[..n]);
      assert forall b: nat :: b < n ==> bufs[..n][b] == bufs[b];
    }
  }

  /** A free buffer is on some list. */
  lemma CountedIsListed(net: Net, bufs: seq<Buf>)
    requires Sound(net, {}) && |bufs| == net.nbuf
    ensures NoneFree(bufs, net.lists) <==> FreeCount(bufs) == 0
  {
    FreeCountIs(bufs);
    if b: nat :| b < |bufs| && bufs[b].refcnt == 0 {
      assert b in net.lists[net.home[b]];
      var i: nat :| i < |net.lists[net.home[b]]| && net.lists[net.home[b]][i] == b;
      assert SomeFree(bufs, net.lists[net.home[b]]);
    }
  }

  /** Buffers in use are keyed (1, 13 j + 1) for some j < i; the others have never been used. */
  ghost predicate Filled(bufs: seq<Buf>, i: nat) {
    forall b: nat :: b < |bufs| ==>
      if bufs[b].refcnt == 0 then bufs[b].dev == 0
      else bufs[b].dev == 1 && bufs[b].blockno % NBUCKETS == 1 && bufs[b].blockno < NBUCKETS * i + 1
  }

  /** From boot: as many gets of different blocks as there are buffers, and then a get of a block of
      bucket 0.  However many rounds it is given, it is still sweeping. */
  method HangsFromBoot(nbuf: nat, rounds: nat) returns (c: Bcache, r: BgetEnd)
    ensures fresh(c) && c.Valid() && c.nbuf == nbuf && NoneFree(c.bufs, c.lists) && r == Sweeping
  {
    c := new Bcache(nbuf);
    FreeCountIs(c.bufs);
    var i := 0;
    while i < nbuf
      invariant 0 <= i <= nbuf && fresh(c) && c.Valid() && c.nbuf == nbuf && Filled(c.bufs, i) && FreeCount(c.bufs) == nbuf - i
    {
      UseOne(c, i);
      i := i + 1;
    }
    CountedIsListed(c.Now(), c.bufs);
    ghost var bufs, lists := c.bufs, c.lists;
    SweepsForEver(bufs, lists, rounds);
    r := c.Bget(1, 0, rounds);
  }

  method UseOne(c: Bcache, i: nat)
    requires c.Valid() && Filled(c.bufs, i) && FreeCount(c.bufs) > 0
    modifies c
    ensures c.Valid() && Filled(c.bufs, i + 1) && FreeCount(c.bufs) == FreeCount(old(c.bufs)) - 1
  {
    CountedIsListed(c.Now(), c.bufs);
    ghost var bufs, lists := c.bufs, c.lists;
    var blockno := NBUCKETS * i + 1;
    assert blockno % NBUCKETS == 1;
    ThirteenRounds(bufs, lists, 1, blockno, 13);
    var r := c.Bget(1, blockno, 13);
    FreeCountUpdate(bufs, r.b, Buf(1, blockno, false, 1));
  }
}

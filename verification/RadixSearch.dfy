/** vmm_radix_tree.c, vmm.c: finding the occupied pages of an address space, interval by interval. */
module RadixSearch {
  import opened PageTableMemory
  import opened RadixWalk

  function EntryAt(t: Tree, p: Ptr): Entry
  {
    if p.At? && p.table in t.tables && p.index < |t.tables[p.table]| then t.tables[p.table][p.index] else Entry(false, 0, 0)
  }

  function NodeAt(t: Tree, p: Ptr): Node
  {
    if p.At? && p.table in t.leaves && p.index < |t.leaves[p.table]| then t.leaves[p.table][p.index] else Node(Flags(false, false, 0), false)
  }

  /** radix_l3_overlap_insert. */
  predicate Taken(n: Node) { n.flags.valid || n.flags.lazy || n.owned }

  predicate Occupied(t: Tree, x: nat) { Taken(NodeAt(t, Fresh(t, 3, x))) }

  function FlagsOf(t: Tree, x: nat): Flags { NodeAt(t, Fresh(t, 3, x)).flags }

  /** Entries above an occupied page are valid, and the lowest one counts something. */
  ghost predicate WellKept(t: Tree)
  {
    forall x: nat {:trigger Occupied(t, x)} :: Occupied(t, x) ==>
      && EntryAt(t, Fresh(t, 0, x)).valid && EntryAt(t, Fresh(t, 1, x)).valid
      && EntryAt(t, Fresh(t, 2, x)).valid && EntryAt(t, Fresh(t, 2, x)).count > 0
  }

  /** The search passes over this entry. */
  predicate Skipped(l: nat, e: Entry) { !e.valid || e.child == 0 || (l == 2 && e.count == 0) }

  lemma SkippedEmpty(t: Tree, l: nat, x: nat)
    requires WellKept(t) && l <= 2 && Skipped(l, EntryAt(t, Fresh(t, l, x)))
    ensures !Occupied(t, x)
  {
    FreshSteps(t, x);
  }

  /** The first occupied page of [a, b], if any. */
  ghost predicate FirstOccupied(t: Tree, a: nat, b: int, found: bool, x: nat)
  {
    if found then a <= x <= b && Occupied(t, x) && forall y: nat :: a <= y < x ==> !Occupied(t, y)
    else forall y: nat :: a <= y <= b ==> !Occupied(t, y)
  }

  /**
   The nested loops of vmm_radix_tree_find_first_occupied_leaf, ascending: the entries of level l for the pages
   a .. b, which share the bits above; `up` is the entry above them.
   */
  method Scan(t: Tree, l: nat, up: Ptr, a: nat, b: nat) returns (found: bool, x: nat)
    requires WellKept(t) && l <= 3 && a <= b && Bits(l, a) == Bits(l, b) && (l > 0 ==> up == Fresh(t, l - 1, a))
    ensures FirstOccupied(t, a, b, found, x)
    decreases 3 - l, 2
  {
    var k := Bits(l + 1, a);
    BandRun(l + 1, k, a);
    BandRun(l + 1, k, b);
    while k <= Bits(l + 1, b)
      invariant Bits(l + 1, a) <= k <= Bits(l + 1, b) + 1
      invariant forall y: nat :: a <= y <= b && y < First(l + 1, k) ==> !Occupied(t, y)
    {
      found, x := ScanEntry(t, l, up, k, a, b);
      if found {
        return;
      }
      k := k + 1;
    }
    BandRun(l + 1, k, b);
    return false, 0;
  }

  /** The entry of level l with bits k, as far as a .. b reaches into it. */
  method ScanEntry(t: Tree, l: nat, up: Ptr, k: nat, a: nat, b: nat) returns (found: bool, x: nat)
    requires WellKept(t) && l <= 3 && a <= b && Bits(l, a) == Bits(l, b) && (l > 0 ==> up == Fresh(t, l - 1, a))
    requires Bits(l + 1, a) <= k <= Bits(l + 1, b)
    requires forall y: nat :: a <= y <= b && y < First(l + 1, k) ==> !Occupied(t, y)
    ensures found ==> FirstOccupied(t, a, b, true, x)
    ensures !found ==> forall y: nat :: a <= y <= b && y < First(l + 1, k + 1) ==> !Occupied(t, y)
    decreases 3 - l, 1
  {
    FirstGrows(l + 1, k, k + 1);
    var lo, hi := First(l + 1, k), First(l + 1, k + 1) - 1;
    var ms, me := if a > lo then a else lo, if b < hi then b else hi;
    PartReady(t, l, k, a, b, ms, me);
    var p := if l == 0 then At(t.root, Index(0, ms)) else Below(t, up, Index(l, ms));
    found, x := ScanPart(t, l, p, ms, me);
    PartEnd(t, a, b, lo, hi, ms, me, found, x);
  }

  lemma FreshStep(t: Tree, l: nat, x: nat)
    requires l <= 3
    ensures Fresh(t, l, x) == if l == 0 then At(t.root, Index(0, x)) else Below(t, Fresh(t, l - 1, x), Index(l, x))
  {
    FreshSteps(t, x);
  }

  /** The part and the entry its pages share. */
  lemma PartReady(t: Tree, l: nat, k: nat, a: nat, b: nat, ms: nat, me: nat)
    requires l <= 3 && a <= b && Bits(l, a) == Bits(l, b) && Bits(l + 1, a) <= k <= Bits(l + 1, b)
    requires ms == (if a > First(l + 1, k) then a else First(l + 1, k)) && me == if b < First(l + 1, k + 1) - 1 then b else First(l + 1, k + 1) - 1
    ensures a <= ms <= me <= b && Bits(l + 1, ms) == Bits(l + 1, me)
    ensures Fresh(t, l, ms) == if l == 0 then At(t.root, Index(0, ms)) else Below(t, Fresh(t, l - 1, a), Index(l, ms))
    ensures forall y: nat :: ms <= y <= me ==> Fresh(t, l, y) == Fresh(t, l, ms)
  {
    PartRange(l + 1, k, a, b, ms, me);
    BandPart(t, l, l + 1, k, a, b, ms, me);
    FreshStep(t, l, ms);
  }

  /** What was found in the part, for the whole. */
  lemma PartEnd(t: Tree, a: nat, b: nat, lo: nat, hi: nat, ms: nat, me: nat, found: bool, x: nat)
    requires ms == (if a > lo then a else lo) && me == (if b < hi then b else hi) && a <= ms <= me <= b
    requires (forall y: nat :: a <= y <= b && y < lo ==> !Occupied(t, y)) && FirstOccupied(t, ms, me, found, x)
    ensures found ==> FirstOccupied(t, a, b, true, x)
    ensures !found ==> forall y: nat :: a <= y <= b && y <= hi ==> !Occupied(t, y)
  {
  }

  /** Pages ms .. me, which share the level-l entry or leaf p. */
  method ScanPart(t: Tree, l: nat, p: Ptr, ms: nat, me: nat) returns (found: bool, x: nat)
    requires WellKept(t) && l <= 3 && ms <= me && Bits(l + 1, ms) == Bits(l + 1, me) && p == Fresh(t, l, ms)
    requires forall y: nat :: ms <= y <= me ==> Fresh(t, l, y) == p
    ensures FirstOccupied(t, ms, me, found, x)
    decreases 3 - l, 0
  {
    if l == 3 {
      BandOne(ms, me);
      return Taken(NodeAt(t, p)), ms;
    }
    if Skipped(l, EntryAt(t, p)) {
      PartSkipped(t, l, ms, me);
      return false, 0;
    }
    found, x := Scan(t, l + 1, p, ms, me);
  }

  /** The part of a .. b with level-(l + 1) bits k. */
  lemma PartRange(j: nat, k: nat, a: nat, b: nat, ms: nat, me: nat)
    requires j <= 4 && a <= b && Bits(j, a) <= k <= Bits(j, b)
    requires ms == (if a > First(j, k) then a else First(j, k)) && me == if b < First(j, k + 1) - 1 then b else First(j, k + 1) - 1
    ensures a <= ms <= me <= b
    ensures forall y: nat :: ms <= y <= me ==> Bits(j, y) == k
  {
    FirstGrows(j, k, k + 1);
    BandRun(j, k, b);
    BandRun(j, k + 1, a);
    forall y: nat | ms <= y <= me
      ensures Bits(j, y) == k
    {
      BandRun(j, k, y);
    }
  }

  /** These pages share one entry of level l. */
  lemma BandPart(t: Tree, l: nat, j: nat, k: nat, a: nat, b: nat, ms: nat, me: nat)
    requires l <= 3 && j == l + 1 && a <= ms <= me <= b && Bits(l, a) == Bits(l, b) && forall y: nat :: ms <= y <= me ==> Bits(j, y) == k
    ensures l > 0 ==> Fresh(t, l - 1, ms) == Fresh(t, l - 1, a)
    ensures forall y: nat :: ms <= y <= me ==> Fresh(t, l, y) == Fresh(t, l, ms)
  {
    Between(l, a, ms, b);
    if l > 0 {
      FreshShared(t, l - 1, a, ms);
    }
    forall y: nat | ms <= y <= me
      ensures Fresh(t, l, y) == Fresh(t, l, ms)
    {
      FreshShared(t, l, ms, y);
    }
  }

  lemma PartSkipped(t: Tree, l: nat, ms: nat, me: nat)
    requires WellKept(t) && l <= 2 && Skipped(l, EntryAt(t, Fresh(t, l, ms))) && forall y: nat :: ms <= y <= me ==> Fresh(t, l, y) == Fresh(t, l, ms)
    ensures forall y: nat :: ms <= y <= me ==> !Occupied(t, y)
  {
    forall y: nat | ms <= y <= me
      ensures !Occupied(t, y)
    {
      SkippedEmpty(t, l, y);
    }
  }

  /** Pages between two that share their bits share them too. */
  lemma Between(l: nat, a: nat, x: nat, b: nat)
    requires l <= 4 && a <= x <= b && Bits(l, a) == Bits(l, b)
    ensures Bits(l, x) == Bits(l, a)
  {
    BandRun(l, Bits(l, a), a);
    BandRun(l, Bits(l, a), x);
    BandRun(l, Bits(l, a), b);
  }

  lemma BandOne(x: nat, y: nat)
    requires Bits(4, x) == Bits(4, y)
    ensures x == y
  {
  }

  // ---------------------------------------------------------------------------------------------
  // Intervals
  // ---------------------------------------------------------------------------------------------

  datatype Interval = Interval(start: nat, end: nat, flags: Flags)

  predicate Continues(t: Tree, y: nat, f: Flags) { Occupied(t, y) && FlagsOf(t, y) == f }

  /** The run of equally flagged occupied pages that starts at the first occupied page of [a, b). */
  ghost predicate FirstRun(t: Tree, a: nat, b: nat, v: Interval)
  {
    && a <= v.start < v.end <= b
    && (forall y: nat :: a <= y < v.start ==> !Occupied(t, y))
    && (forall y: nat :: v.start <= y < v.end ==> Continues(t, y, v.flags))
    && (v.end == b || !Continues(t, v.end, v.flags))
  }

  lemma TopBits(a: nat, b: nat)
    requires a < VPN_LIMIT && b < VPN_LIMIT
    ensures Bits(0, a) == Bits(0, b)
  {
    TopZero(a);
    TopZero(b);
  }

  lemma TopZero(a: nat)
    requires a < VPN_LIMIT
    ensures Bits(0, a) == 0
  {
    assert Bits(3, a) == Bits(4, a) / ENTRIES;
    assert Bits(2, a) == Bits(3, a) / ENTRIES;
    assert Bits(1, a) == Bits(2, a) / ENTRIES;
  }

  /** Pages of one 2M band share their level-2 entry. */
  lemma BandEntry(t: Tree, base: nat, y: nat)
    requires base % ENTRIES == 0 && base <= y < base + ENTRIES
    ensures Fresh(t, 2, y) == Fresh(t, 2, base) && Fresh(t, 3, y) == Below(t, Fresh(t, 2, base), Index(3, y))
  {
    assert Bits(3, y) == Bits(4, y) / ENTRIES && Bits(3, base) == Bits(4, base) / ENTRIES;
    FreshShared(t, 2, y, base);
    FreshSteps(t, y);
  }

  /** The loop over the pages of one band, from `iter` on: how far the run goes on. */
  method ExtendInBand(t: Tree, p2: Ptr, base: nat, iter: nat, bandEnd: nat, f: Flags) returns (next: nat)
    requires base % ENTRIES == 0 && bandEnd <= base + ENTRIES && p2 == Fresh(t, 2, base) && iter < bandEnd
    ensures iter <= next
    ensures forall y: nat :: iter <= y < next ==> Continues(t, y, f)
    ensures base <= iter ==> next <= bandEnd && (next == bandEnd || !Continues(t, next, f))
    ensures iter < base ==> next == iter
  {
    next := iter;
    while next < bandEnd && next / ENTRIES * ENTRIES == base
      invariant iter <= next <= bandEnd
      invariant forall y: nat :: iter <= y < next ==> Continues(t, y, f)
      invariant iter < base ==> next == iter
    {
      BandEntry(t, base, next);
      var p := Below(t, p2, Index(3, next));
      if p == Null || !Taken(NodeAt(t, p)) || NodeAt(t, p).flags != f {
        return;
      }
      next := next + 1;
    }
  }

  /** The run of flags f covers first .. iter. */
  ghost predicate RunTo(t: Tree, first: nat, iter: nat, f: Flags)
  {
    forall y: nat :: first <= y < iter ==> Continues(t, y, f)
  }

  /** The walker is at the band of page iter, or past it if the run has ended there. */
  ghost predicate AtBand(t: Tree, w: Walker, end: nat, iter: nat, f: Flags)
  {
    && Cached(t, w) && InRange(w) && w.level == 2 && w.direction == 1 && w.cur % ENTRIES == 0 && w.end == end
    && iter < w.cur + ENTRIES && iter < end && (w.cur <= iter || !Continues(t, iter, f))
  }

  /** The loop over the bands: where the run of flags f that reaches up to `first` ends. */
  method ExtendRun(t: Tree, first: nat, end: nat, f: Flags) returns (iter: nat)
    requires first < end
    ensures first <= iter <= end && (iter == end || !Continues(t, iter, f)) && RunTo(t, first, iter, f)
  {
    iter := first;
    var base := first / ENTRIES * ENTRIES;
    assert base <= first < base + ENTRIES && base % ENTRIES == 0;
    var ok, w := Init(t, base, end, 2, 1);
    while ok
      invariant first <= iter <= end && RunTo(t, first, iter, f)
      invariant ok ==> AtBand(t, w, end, iter, f)
      invariant !ok ==> iter == end || !Continues(t, iter, f)
      decreases if ok then 1 else 0, end - w.cur
    {
      ghost var was := iter;
      ok, iter, w := NextBand(t, w, end, iter, f);
      assert RunTo(t, first, was, f) && RunTo(t, was, iter, f);
    }
  }

  /** One band of it. */
  method NextBand(t: Tree, w: Walker, end: nat, iter: nat, f: Flags) returns (ok: bool, iter': nat, w': Walker)
    requires AtBand(t, w, end, iter, f)
    ensures iter <= iter' <= end && RunTo(t, iter, iter', f)
    ensures !ok ==> w' == w && (iter' == end || !Continues(t, iter', f))
    ensures ok ==> AtBand(t, w', end, iter', f) && w'.cur == w.cur + ENTRIES
  {
    NothingInBand(t, w.cur, iter, f);
    if w.p2 == Null {
      return false, iter, w;
    }
    var bandEnd := if w.end < w.cur + ENTRIES then w.end else w.cur + ENTRIES;
    iter' := ExtendInBand(t, w.p2, w.cur, iter, bandEnd, f);
    if iter' == iter {
      return false, iter', w;
    }
    NothingInBand(t, w.cur + ENTRIES, iter', f);
    ok, w' := Advance(t, w);
  }

  /** Without a level-2 entry no page of the band is occupied. */
  lemma NothingInBand(t: Tree, base: nat, y: nat, f: Flags)
    requires base % ENTRIES == 0
    ensures Fresh(t, 2, base) == Null && base <= y < base + ENTRIES ==> !Continues(t, y, f)
  {
    if base <= y < base + ENTRIES {
      BandEntry(t, base, y);
    }
  }

  /** vmm_radix_tree_find_first_occupied_interval. */
  method FindInterval(t: Tree, start: nat, end: nat) returns (found: bool, v: Interval)
    requires WellKept(t) && end <= VPN_LIMIT
    ensures found ==> FirstRun(t, start, end, v)
    ensures !found ==> forall y: nat :: start <= y < end ==> !Occupied(t, y)
  {
    v := Interval(0, 0, Flags(false, false, 0));
    if end <= start {
      return false, v;
    }
    TopBits(start, end - 1);
    var x;
    found, x := Scan(t, 0, Null, start, end - 1);
    if found {
      var f := FlagsOf(t, x);
      var e := x + 1;
      if e < end {
        e := ExtendRun(t, x + 1, end, f);
      }
      v := Interval(x, e, f);
    }
  }

  // ---------------------------------------------------------------------------------------------
  // All intervals
  // ---------------------------------------------------------------------------------------------

  /** Each interval is the first run after the end of the one before, and after the last there is nothing. */
  ghost predicate Runs(t: Tree, a: nat, b: nat, list: seq<Interval>)
    decreases |list|
  {
    if list == [] then forall y: nat :: a <= y < b ==> !Occupied(t, y)
    else FirstRun(t, a, b, list[0]) && Runs(t, list[0].end, b, list[1..])
  }

  lemma {:induction false} RunsAppend(t: Tree, a: nat, b: nat, list: seq<Interval>, v: Interval)
    requires RunsUpTo(t, a, b, list) && FirstRun(t, Reached(a, list), b, v)
    ensures RunsUpTo(t, a, b, list + [v]) && Reached(a, list + [v]) == v.end
    decreases |list|
  {
    if list != [] {
      assert (list + [v])[1..] == list[1..] + [v];
      RunsAppend(t, list[0].end, b, list[1..], v);
    }
  }

  /** Runs, as far as the list goes. */
  ghost predicate RunsUpTo(t: Tree, a: nat, b: nat, list: seq<Interval>)
    decreases |list|
  {
    list == [] || (FirstRun(t, a, b, list[0]) && RunsUpTo(t, list[0].end, b, list[1..]))
  }

  function Reached(a: nat, list: seq<Interval>): nat { if list == [] then a else list[|list| - 1].end }

  lemma {:induction false} RunsDone(t: Tree, a: nat, b: nat, list: seq<Interval>)
    requires RunsUpTo(t, a, b, list) && forall y: nat :: Reached(a, list) <= y < b ==> !Occupied(t, y)
    ensures Runs(t, a, b, list)
    decreases |list|
  {
    if list != [] {
      RunsDone(t, list[0].end, b, list[1..]);
    }
  }

  /** The loop of clone_vspace: asking again from the end of the interval found last. */
  method Enumerate(t: Tree, start: nat, end: nat) returns (list: seq<Interval>)
    requires WellKept(t) && end <= VPN_LIMIT
    ensures Runs(t, start, end, list)
  {
    list := [];
    var iter := start;
    var found, v := FindInterval(t, iter, end);
    while found
      invariant start <= iter && iter == Reached(start, list) && RunsUpTo(t, start, end, list)
      invariant found ==> FirstRun(t, iter, end, v)
      invariant !found ==> forall y: nat :: iter <= y < end ==> !Occupied(t, y)
      decreases if found then 1 else 0, end - iter
    {
      RunsAppend(t, start, end, list, v);
      list, iter := list + [v], v.end;
      found, v := FindInterval(t, iter, end);
    }
    RunsDone(t, start, end, list);
  }

  ghost predicate Inside(v: Interval, y: nat) { v.start <= y < v.end }

  /** The intervals cover exactly the occupied pages, with their flags. */
  lemma {:induction false} RunsCover(t: Tree, a: nat, b: nat, list: seq<Interval>, y: nat)
    requires Runs(t, a, b, list) && a <= y < b
    ensures Occupied(t, y) <==> exists i :: 0 <= i < |list| && Inside(list[i], y)
    ensures forall i :: 0 <= i < |list| && Inside(list[i], y) ==> FlagsOf(t, y) == list[i].flags
    decreases |list|
  {
    forall i | 0 <= i < |list| && Inside(list[i], y)
      ensures Continues(t, y, list[i].flags)
    {
      RunsFlags(t, a, b, list, i, y);
    }
    if list != [] {
      if y < list[0].end {
        assert Occupied(t, y) ==> Inside(list[0], y);
      } else {
        RunsCover(t, list[0].end, b, list[1..], y);
        if i :| 0 <= i < |list[1..]| && Inside(list[1..][i], y) {
          assert Inside(list[i + 1], y);
        }
      }
    }
  }

  /** They are in ascending order and do not overlap. */
  lemma {:induction false} RunsAscend(t: Tree, a: nat, b: nat, list: seq<Interval>)
    requires Runs(t, a, b, list)
    ensures forall i :: 0 <= i < |list| ==> a <= list[i].start < list[i].end <= b
    ensures forall i, j :: 0 <= i < j < |list| ==> list[i].end <= list[j].start
    decreases |list|
  {
    if list != [] {
      RunsAscend(t, list[0].end, b, list[1..]);
      assert forall i :: 1 <= i < |list| ==> list[i] == list[1..][i - 1];
    }
  }

  /** Each is maximal: the page before it and the page after it do not belong to the run. */
  lemma {:induction false} RunsMaximal(t: Tree, a: nat, b: nat, list: seq<Interval>, i: nat)
    requires Runs(t, a, b, list) && i < |list|
    ensures a <= list[i].start < list[i].end <= b
    ensures list[i].end == b || !Continues(t, list[i].end, list[i].flags)
    ensures list[i].start == a || !Continues(t, list[i].start - 1, list[i].flags)
    decreases |list|
  {
    if i > 0 {
      RunsMaximal(t, list[0].end, b, list[1..], i - 1);
      assert list[i] == list[1..][i - 1];
      var v := list[0];
      if list[i].start == v.end {
        assert Continues(t, v.end, list[i].flags) by { RunsFlags(t, v.end, b, list[1..], i - 1, v.end); }
        assert Continues(t, v.end - 1, v.flags);
      }
    }
  }

  lemma {:induction false} RunsFlags(t: Tree, a: nat, b: nat, list: seq<Interval>, i: nat, y: nat)
    requires Runs(t, a, b, list) && i < |list| && Inside(list[i], y)
    ensures Continues(t, y, list[i].flags)
    decreases |list|
  {
    if i > 0 {
      RunsFlags(t, list[0].end, b, list[1..], i - 1, y);
    }
  }
}

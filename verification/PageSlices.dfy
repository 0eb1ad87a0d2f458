/** page_slice.c: the slice object. Allocation may fail at any time. */
module PageSlices {
  import opened PageSliceMemory
  import opened PageSliceSubtrees

  const PAGE_SIZE: nat := 0x1000
  const MAX_BYTES: nat := MAX_PAGES * PAGE_SIZE

  datatype Error = Success | InParam | NoMem | NotFound | Again | Overflow

  function PageCount(size: nat): nat { (size + PAGE_SIZE - 1) / PAGE_SIZE }

  /** What a slice keeps: the tree is well shaped, stands for `view`, maps only offsets below the size, and counts them. */
  ghost predicate SliceOk(m: Memory, g: Geometry, size: nat, mapped: nat, view: map<nat, Cell>)
  {
    && Shape(m, g)
    && 0 < size <= MAX_BYTES
    && view == Contents(m, g)
    && mapped == |view|
    && forall x :: x in view ==> x < PageCount(size)
  }

  ghost predicate OpenSound(k: Key) { true }

  /** SliceOk, folded. */
  ghost predicate Sound(m: Memory, g: Geometry, size: nat, mapped: nat, view: map<nat, Cell>)
  {
    forall k: Key {:trigger OpenSound(k)} :: OpenSound(k) ==> SliceOk(m, g, size, mapped, view)
  }

  lemma OpenSlice(m: Memory, g: Geometry, size: nat, mapped: nat, view: map<nat, Cell>)
    requires Sound(m, g, size, mapped, view)
    ensures SliceOk(m, g, size, mapped, view)
  {
    assert OpenSound(Key);
  }

  lemma CloseSlice(m: Memory, g: Geometry, size: nat, mapped: nat, view: map<nat, Cell>)
    requires SliceOk(m, g, size, mapped, view)
    ensures Sound(m, g, size, mapped, view)
  {
  }

  /** What the slice's map says about one offset. */
  lemma SliceAt(m: Memory, g: Geometry, size: nat, mapped: nat, view: map<nat, Cell>, x: nat)
    requires Sound(m, g, size, mapped, view)
    ensures Shape(m, g) && 0 < size <= MAX_BYTES
    ensures x in view <==> Mapped(m, g, x)
    ensures x in view ==> view[x] == CellAt(m, g, x) && Bound(view[x]) && x < PageCount(size)
  {
    OpenSlice(m, g, size, mapped, view);
    if Mapped(m, g, x) {
      MappedBelow(m, g, x);
    }
  }

  /** Binding a free offset below the size. */
  lemma BindSlice(m: Memory, g: Geometry, size: nat, mapped: nat, view: map<nat, Cell>, x: nat, c: Cell, m1: Memory, at: Location)
    requires Sound(m, g, size, mapped, view) && x < PageCount(size) && (1, Prefix(1, x)) in g.at && Bound(c) && !Mapped(m, g, x)
    requires g.at[(1, Prefix(1, x))] in m.leaf && x % LEAF_CAPACITY < |m.leaf[g.at[(1, Prefix(1, x))]]|
    requires m1 == WriteCell(m, g.at[(1, Prefix(1, x))], x % LEAF_CAPACITY, c)
    requires OnWay(m, g, x, 1, g.at[(1, Prefix(1, x))], at)
    ensures Stored(m1, at) && Sound(IncLive(m1, at), g, size, mapped + 1, view[x := c])
    ensures TightBut(m, g, g.at[(1, Prefix(1, x))]) ==> Tight(IncLive(m1, at), g)
  {
    OpenSlice(m, g, size, mapped, view);
    BindAll(m, g, x, c, m1, at);
    UpdatedContents(m, g, IncLive(m1, at), g, x, c);
    if TightBut(m, g, g.at[(1, Prefix(1, x))]) {
      CellTight(m, g, g.at[(1, Prefix(1, x))], IncLive(m1, at));
      TightAgain(IncLive(m1, at), g, g.at[(1, Prefix(1, x))]);
    }
    CloseSlice(IncLive(m1, at), g, size, mapped + 1, view[x := c]);
  }

  /** Clearing a mapped offset. */
  lemma ClearSlice(m: Memory, g: Geometry, size: nat, mapped: nat, view: map<nat, Cell>, x: nat, m1: Memory, at: Location)
    requires Sound(m, g, size, mapped, view) && Mapped(m, g, x)
    requires m1 == WriteCell(m, g.at[(1, Prefix(1, x))], x % LEAF_CAPACITY, Cell(0, false, false))
    requires OnWay(m, g, x, 1, g.at[(1, Prefix(1, x))], at)
    ensures Stored(m1, at) && mapped > 0 && Sound(DecLive(m1, at), g, size, mapped - 1, view - {x}) && Shape(DecLive(m1, at), g)
    ensures Tight(m, g) ==> TightBut(DecLive(m1, at), g, g.at[(1, Prefix(1, x))])
  {
    OpenSlice(m, g, size, mapped, view);
    ClearAll(m, g, x, m1, at);
    MappedBelow(m, g, x);
    UpdatedContents(m, g, DecLive(m1, at), g, x, Cell(0, false, false));
    RemovedSize(view, x);
    if Tight(m, g) {
      TightExcused(m, g, g.at[(1, Prefix(1, x))]);
      CellTight(m, g, g.at[(1, Prefix(1, x))], DecLive(m1, at));
    }
    CloseSlice(DecLive(m1, at), g, size, mapped - 1, view - {x});
  }

  lemma SameSlice(m: Memory, g: Geometry, m': Memory, g': Geometry, size: nat, mapped: nat, view: map<nat, Cell>)
    requires Sound(m, g, size, mapped, view) && Shape(m', g') && SameMap(m, g, m', g')
    ensures Sound(m', g', size, mapped, view)
  {
    OpenSlice(m, g, size, mapped, view);
    SameContents(m, g, m', g');
    CloseSlice(m', g', size, mapped, view);
  }

  /** The part of the map below `pages`. */
  ghost function Restrict(a: map<nat, Cell>, pages: nat): map<nat, Cell>
  {
    map x | x in a && x < pages :: a[x]
  }

  lemma BelowSize(m: Memory, g: Geometry, size: nat, mapped: nat, view: map<nat, Cell>)
    requires Sound(m, g, size, mapped, view)
    ensures Restrict(view, PageCount(size)) == view
  {
    OpenSlice(m, g, size, mapped, view);
  }

  lemma Resize(m: Memory, g: Geometry, size: nat, newSize: nat, mapped: nat, view: map<nat, Cell>, was: map<nat, Cell>)
    requires Sound(m, g, size, mapped, view) && 0 < newSize <= MAX_BYTES
    requires view == if newSize < size then Restrict(was, PageCount(newSize)) else was
    ensures Sound(m, g, newSize, mapped, view) && view == Restrict(was, PageCount(newSize))
  {
    OpenSlice(m, g, size, mapped, view);
    CloseSlice(m, g, newSize, mapped, view);
  }

  lemma NothingMapped(m: Memory, g: Geometry, size: nat, mapped: nat)
    requires Sound(m, g, size, mapped, map[])
    ensures forall x: nat :: !Mapped(m, g, x)
  {
    forall x: nat
      ensures !Mapped(m, g, x)
    {
      SliceAt(m, g, size, mapped, map[], x);
    }
  }

  /** If nothing is mapped, a tight root that shrinking does not collapse is empty or absent. */
  lemma ShrinkEnd(m: Memory, g: Geometry, size: nat, mapped: nat, view: map<nat, Cell>)
    requires Shape(m, g) && Sound(m, g, size, mapped, view)
    ensures m.root.Nil? ==> NoPages(m)
    ensures m.root.Entry? && Tight(m, g) && view == map[] ==>
              && m.root.height >= 2 && m.root.ptr in m.index && m.root.live <= 1
              && (m.root.live == 1 ==> m.index[m.root.ptr] != [] && m.index[m.root.ptr][0].Entry?)
  {
    if m.root.Nil? {
      EmptyRoot(m, g);
    } else if Tight(m, g) && view == map[] {
      NothingMapped(m, g, size, mapped);
      TightRoot(m, g);
    }
  }

  /** Every index and leaf page has been given back. */
  predicate NoPages(m: Memory) { m.root.Nil? && m.index == map[] && m.leaf == map[] }

  /** The address to give back when offset x is cleared: pinned pages are not owned. */
  ghost function ReleasedAt(a: map<nat, Cell>, x: nat): seq<nat>
  {
    if x in a && !a[x].pin then [a[x].kva] else []
  }

  /** The addresses to give back for the offsets x .. x + n, in ascending order. */
  ghost function Releases(a: map<nat, Cell>, x: nat, n: nat): seq<nat>
  {
    if n == 0 then [] else Releases(a, x, n - 1) + ReleasedAt(a, x + n - 1)
  }

  lemma {:induction false} ReleasesSplit(a: map<nat, Cell>, x: nat, n: nat, k: nat)
    ensures Releases(a, x, n + k) == Releases(a, x, n) + Releases(a, x + n, k)
  {
    if k > 0 {
      ReleasesSplit(a, x, n, k - 1);
    }
  }

  lemma {:induction false} ReleasesNone(a: map<nat, Cell>, x: nat, n: nat)
    requires forall y :: x <= y < x + n ==> y !in a
    ensures Releases(a, x, n) == []
  {
    if n > 0 {
      ReleasesNone(a, x, n - 1);
    }
  }

  /** The addresses to give back for the cells of one leaf page. */
  function LeafReleases(cells: seq<Cell>): seq<nat>
  {
    if cells == [] then [] else
      LeafReleases(cells[..|cells| - 1])
      + (if Bound(cells[|cells| - 1]) && !cells[|cells| - 1].pin then [cells[|cells| - 1].kva] else [])
  }

  /** They are what the map says for the offsets of the page. */
  lemma {:induction false} LeafReleasesOk(m: Memory, g: Geometry, size: nat, mapped: nat, view: map<nat, Cell>, k: nat, n: nat)
    requires Sound(m, g, size, mapped, view) && (1, k) in g.at && g.at[(1, k)] in m.leaf && |m.leaf[g.at[(1, k)]]| == LEAF_CAPACITY
    requires n <= LEAF_CAPACITY
    ensures LeafReleases(m.leaf[g.at[(1, k)]][..n]) == Releases(view, k * LEAF_CAPACITY, n)
  {
    if n > 0 {
      LeafReleasesOk(m, g, size, mapped, view, k, n - 1);
      var cells := m.leaf[g.at[(1, k)]];
      assert cells[..n][..n - 1] == cells[..n - 1];
      var x := k * LEAF_CAPACITY + n - 1;
      assert x / LEAF_CAPACITY == k && x % LEAF_CAPACITY == n - 1;
      SliceAt(m, g, size, mapped, view, x);
    }
  }

  lemma LeafReleasesAll(m: Memory, g: Geometry, size: nat, mapped: nat, view: map<nat, Cell>, k: nat)
    requires Sound(m, g, size, mapped, view) && (1, k) in g.at && g.at[(1, k)] in m.leaf && |m.leaf[g.at[(1, k)]]| == LEAF_CAPACITY
    ensures LeafReleases(m.leaf[g.at[(1, k)]]) == Releases(view, k * Span(1), Span(1))
  {
    LeafReleasesOk(m, g, size, mapped, view, k, LEAF_CAPACITY);
    assert m.leaf[g.at[(1, k)]][..LEAF_CAPACITY] == m.leaf[g.at[(1, k)]];
  }

  /** Offsets beyond the span of the root are not mapped. */
  lemma NothingBeyond(m: Memory, g: Geometry, size: nat, mapped: nat, view: map<nat, Cell>, y: nat)
    requires Sound(m, g, size, mapped, view) && Shape(m, g) && y < MAX_PAGES
    requires m.root.Entry? ==> m.root.height <= MAX_HEIGHT && Span(m.root.height) <= y
    ensures y !in view
  {
    SliceAt(m, g, size, mapped, view, y);
    if m.root.Entry? {
      RootAt(m, g);
      PrefixIsQuotient(m.root.height, y);
    }
    if Mapped(m, g, y) {
      LeafPage(m, g, y);
    }
  }

  /** Beyond what the root serves there is nothing to give back. */
  lemma EmptyReleases(m: Memory, g: Geometry, size: nat, mapped: nat, view: map<nat, Cell>, x: nat)
    requires Sound(m, g, size, mapped, view) && Shape(m, g) && x <= MAX_PAGES
    requires if m.root.Nil? then x == 0 else x == Span(m.root.height) && m.root.height <= MAX_HEIGHT
    ensures Releases(view, 0, MAX_PAGES) == Releases(view, 0, x)
  {
    forall y | x <= y < MAX_PAGES
      ensures y !in view
    {
      NothingBeyond(m, g, size, mapped, view, y);
    }
    ReleasesNone(view, x, MAX_PAGES - x);
    ReleasesSplit(view, 0, x, MAX_PAGES - x);
  }

  /** What is given back for the first n slots of the page at y. */
  ghost function SlotsReleases(view: map<nat, Cell>, y: Position, n: nat): seq<nat>
    requires y.0 >= 1
  {
    if n == 0 then [] else SlotsReleases(view, y, n - 1) + Releases(view, Child(y, n - 1).1 * Span(y.0 - 1), Span(y.0 - 1))
  }

  lemma OneMore(n: nat, span: nat)
    requires n > 0
    ensures n * span == (n - 1) * span + span
  {
  }

  lemma {:induction false} ReleasesMore(view: map<nat, Cell>, x: nat, n: nat, span: nat)
    requires n > 0
    ensures Releases(view, x, n * span) == Releases(view, x, (n - 1) * span) + Releases(view, x + (n - 1) * span, span)
  {
    OneMore(n, span);
    ReleasesSplit(view, x, (n - 1) * span, span);
  }

  lemma {:induction false} SlotsReleasesOk(view: map<nat, Cell>, y: Position, n: nat)
    requires y.0 >= 2
    ensures SlotsReleases(view, y, n) == Releases(view, y.1 * Span(y.0), n * Span(y.0 - 1))
  {
    if n > 0 {
      SlotsReleasesOk(view, y, n - 1);
      ChildSpan(y, n - 1);
      ReleasesMore(view, y.1 * Span(y.0), n, Span(y.0 - 1));
    }
  }

  /** A leaf page that is intact can be freed. */
  lemma SlotIntact(m: Memory, m0: Memory, g: Geometry, c: Position)
    requires Shape(m0, g) && Intact(m, m0, g, c)
    ensures c in g.at && c.0 == 1 ==> g.at[c] in m.leaf && g.at[c] !in m.index && g.at[c] in m0.leaf && m.leaf[g.at[c]] == m0.leaf[g.at[c]]
  {
    if c in g.at && c.0 == 1 {
      assert OpenIntact(Key);
      LeafBelow(m0, g, c);
      assert g.at[c] in Below(g, c);
    }
  }

  lemma FreeIndexEnd(m0: Memory, g: Geometry, y: Position, m: Memory, m1: Memory, m2: Memory)
    requires Shape(m0, g) && y in g.at && Pruned(m, m1, BelowSlots(g, y, INDEX_CAPACITY)) && Pruned(m1, m2, {g.at[y]})
    ensures Pruned(m, m2, Below(g, y))
  {
    PageAt(m0, g, y);
    BelowAll(g, y, g.at[y]);
    PrunedTrans(m, m1, m2, BelowSlots(g, y, INDEX_CAPACITY), {g.at[y]});
  }

  lemma FreeIndexStart(m0: Memory, g: Geometry, y: Position, m: Memory)
    requires Shape(m0, g) && y in g.at && y.0 >= 2 && Intact(m, m0, g, y)
    ensures Pruned(m, m, BelowSlots(g, y, 0)) && g.at[y] in m.index && g.at[y] !in m.leaf
    ensures g.at[y] in m0.index && m.index[g.at[y]] == m0.index[g.at[y]]
    ensures y.0 <= StoredHeight(m0)
  {
    PageAt(m0, g, y);
    assert OpenIntact(Key);
    assert BelowSlots(g, y, 0) == {};
    assert g.at[y] in Below(g, y);
  }

  /** A slot in use is all that can make a difference. */
  lemma NoSlotReleases(m: Memory, g: Geometry, size: nat, mapped: nat, view: map<nat, Cell>, y: Position, i: nat)
    requires Sound(m, g, size, mapped, view) && Shape(m, g) && y in g.at && 2 <= y.0 <= StoredHeight(m) && i < INDEX_CAPACITY
    ensures Child(y, i) !in g.at ==> Releases(view, Child(y, i).1 * Span(y.0 - 1), Span(y.0 - 1)) == []
  {
    if Child(y, i) !in g.at {
      var c := Child(y, i);
      forall x | c.1 * Span(c.0) <= x < c.1 * Span(c.0) + Span(c.0)
        ensures x !in view
      {
        SpanUnmapped(m, g, c.0, c.1, x);
        SliceAt(m, g, size, mapped, view, x);
      }
      ReleasesNone(view, c.1 * Span(c.0), Span(c.0));
    }
  }

  /** The addresses to give back for the offsets x .. x + n, in descending order. */
  ghost function Drops(a: map<nat, Cell>, x: nat, n: nat): seq<nat>
    decreases n
  {
    if n == 0 then [] else Drops(a, x + 1, n - 1) + ReleasedAt(a, x)
  }

  lemma CutStep(a: map<nat, Cell>, end: nat)
    requires end > 0
    ensures Restrict(a, end) - {end - 1} == Restrict(a, end - 1)
    ensures ReleasedAt(Restrict(a, end), end - 1) == ReleasedAt(a, end - 1)
  {
  }

  /** How many pages the new size cuts off. */
  function PagesCut(size: nat, newSize: nat): nat
  {
    if newSize < size then PageCount(size) - PageCount(newSize) else 0
  }

  /** In a valid slice every live counter is exact and within its cap, and the slice counts what it maps. */
  lemma CountersExact(m: Memory, g: Geometry, size: nat, mapped: nat, view: map<nat, Cell>, p: Ptr)
    requires Sound(m, g, size, mapped, view)
    ensures mapped == |view|
    ensures p in g.pos ==>
              var at := Home(m, g, p);
              && Stored(m, at) && ReadEntry(m, at).Entry? && ReadEntry(m, at).ptr == p
              && ReadEntry(m, at).live == Live(m, p) <= LiveCap(at.AtRoot?, ReadEntry(m, at).height)
  {
    OpenSlice(m, g, size, mapped, view);
    Unfold(m, g);
    if p in g.pos {
      HomeOk(m, g, p, m.next);
      CapIsCapacity(m, g, p, m.next);
      LiveBounds(m, p);
    }
  }

  /** A slice before it is given back. */
  datatype Tree = Tree(m: Memory, g: Geometry, size: nat, mapped: nat, view: map<nat, Cell>) {
    ghost predicate Ok() { Sound(m, g, size, mapped, view) && Shape(m, g) }
  }

  ghost predicate OpenSlots(k: Key) { true }
  ghost predicate OpenPage(k: Key) { true }

  /** The first n slots of index page p at position y have been freed, and what they own released (folded). */
  ghost predicate SlotsFreed(t: Tree, p: Ptr, y: Position, before: Memory, gone: seq<nat>, m: Memory, released: seq<nat>, n: nat)
    requires y.0 >= 1
  {
    forall k: Key {:trigger OpenSlots(k)} :: OpenSlots(k) ==>
      && Pruned(before, m, BelowSlots(t.g, y, n)) && p in m.index && p !in m.leaf && p in t.m.index && m.index[p] == t.m.index[p]
      && released == gone + SlotsReleases(t.view, y, n)
  }

  /** The tree as it was, with index page p at position y, all of it still there in `before` (folded). */
  ghost predicate IndexPage(t: Tree, p: Ptr, y: Position, before: Memory)
  {
    forall k: Key {:trigger OpenPage(k)} :: OpenPage(k) ==>
      && t.Ok() && y.0 >= 2 && y in t.g.at && t.g.at[y] == p && Intact(before, t.m, t.g, y) && p in t.m.index
  }

  lemma NoSlotsFreed(t: Tree, p: Ptr, y: Position, m: Memory, released: seq<nat>)
    requires y.0 >= 1 && Pruned(m, m, BelowSlots(t.g, y, 0)) && p in m.index && p !in m.leaf && p in t.m.index && m.index[p] == t.m.index[p]
    ensures SlotsFreed(t, p, y, m, released, m, released, 0)
  {
  }

  /** All slots have been freed. */
  lemma AllSlotsFreed(t: Tree, p: Ptr, y: Position, before: Memory, gone: seq<nat>, m: Memory, released: seq<nat>)
    requires y.0 >= 2 && SlotsFreed(t, p, y, before, gone, m, released, INDEX_CAPACITY)
    ensures Pruned(before, m, BelowSlots(t.g, y, INDEX_CAPACITY)) && p in m.index
    ensures released == gone + Releases(t.view, y.1 * Span(y.0), Span(y.0))
  {
    assert OpenSlots(Key);
    SlotsReleasesOk(t.view, y, INDEX_CAPACITY);
  }

  /** What is known of the next slot. */
  lemma SlotFacts(m0: Memory, g: Geometry, size: nat, mapped: nat, view: map<nat, Cell>, y: Position, i: nat, before: Memory, m: Memory, p: Ptr)
    requires Sound(m0, g, size, mapped, view) && Shape(m0, g) && y.0 >= 2 && y in g.at && g.at[y] == p && i < INDEX_CAPACITY
    requires Intact(before, m0, g, y) && Pruned(before, m, BelowSlots(g, y, i)) && p in m.index && p !in m.leaf && p in m0.index && m.index[p] == m0.index[p]
    ensures |m.index[p]| == INDEX_CAPACITY && Intact(m, m0, g, Child(y, i)) && y.0 <= StoredHeight(m0)
    ensures m.index[p][i].Nil? <==> Child(y, i) !in g.at
    ensures m.index[p][i].Entry? ==> m.index[p][i].ptr == g.at[Child(y, i)] && m.index[p][i].height == y.0
    ensures Child(y, i) !in g.at ==> Releases(view, Child(y, i).1 * Span(y.0 - 1), Span(y.0 - 1)) == []
    ensures BelowSlots(g, y, i + 1) == BelowSlots(g, y, i) + Below(g, Child(y, i)) && p !in BelowSlots(g, y, i + 1) && p !in BelowSlots(g, y, i)
    ensures p in before.index && p !in before.leaf && before.index[p] == m.index[p] && p !in Below(g, Child(y, i))
  {
    PageAt(m0, g, y);
    SlotAt(m0, g, y, i);
    BelowStep(g, y, i);
    IntactChild(before, m0, g, y, i, m);
    NoSlotReleases(m0, g, size, mapped, view, y, i);
    NotBelow(g, y, i, p);
    NotPruned(before, m, BelowSlots(g, y, i), p);
  }

  class Slice {
    var m: Memory
    var size: nat
    var mapped: nat
    /** Addresses of data pages given back to the allocator. */
    var released: seq<nat>
    ghost var g: Geometry
    /** The finite map from page offset to page that the slice stands for. */
    ghost var view: map<nat, Cell>

    ghost predicate Valid()
      reads this
    {
      Sound(m, g, size, mapped, view)
    }

    /** page_slice_create. */
    constructor (bytes: nat)
      requires 0 < bytes <= MAX_BYTES
      ensures Valid() && size == bytes && view == map[] && released == [] && Tight(m, g)
    {
      m, size, mapped, released := Memory(Nil, map[], map[], 0), bytes, 0, [];
      g, view := Nowhere(), map[];
      new;
      Fold(m, g);
      CloseSlice(m, g, size, mapped, view);
    }

    method RaiseHeight(target: nat) returns (err: Error)
      requires Shape(m, g)
      modifies this`m, this`g
      ensures Shape(m, g) && SameMap(old(m), old(g), m, g)
      ensures err in {Success, NoMem, Overflow}
      ensures err == Overflow <==> target > MAX_HEIGHT
      ensures err == Success && target >= 2 ==> StoredHeight(m) >= target
      ensures target < 2 || StoredHeight(old(m)) >= target ==> m == old(m) && g == old(g) && err != NoMem
      ensures old(Tight(m, g)) ==> Tight(m, g)
    {
      if target < 2 {
        return Success;
      }
      if target > MAX_HEIGHT {
        return Overflow;
      }
      while StoredHeight(m) < target
        invariant Shape(m, g) && SameMap(old(m), old(g), m, g)
        invariant StoredHeight(old(m)) >= target ==> m == old(m) && g == old(g)
        invariant old(Tight(m, g)) ==> Tight(m, g)
        decreases target - StoredHeight(m)
      {
        var ok: bool := *;
        if !ok {
          return NoMem;
        }
        var m' := RaiseRoot(m);
        ghost var g' := Place(g, (m'.root.height, 0), m.next);
        RaiseAll(m, g, m', g');
        SameMapTrans(old(m), old(g), m, g, m', g');
        if Tight(m, g) {
          RaiseTight(m, g, m', g');
        }
        m, g := m', g';
      }
      return Success;
    }

    /** One level of the growing descent: the page below `page` on the way to x, allocated if missing. */
    method GrowStep(x: nat, level: nat, page: Ptr, up: Location) returns (err: Error, child: Ptr)
      requires Shape(m, g) && OnWay(m, g, x, level + 2, page, up)
      modifies this`m, this`g
      ensures Shape(m, g) && SameMap(old(m), old(g), m, g) && StoredHeight(m) == StoredHeight(old(m))
      ensures err in {Success, NoMem}
      ensures err == Success ==> OnWay(m, g, x, level + 1, child, AtSlot(page, IndexSlot(x, level)))
      ensures (level + 1, Prefix(level + 1, x)) in old(g.at) ==> err == Success && m == old(m) && g == old(g)
      ensures err != Success ==> m == old(m) && g == old(g)
      ensures err == Success && old(TightBut(m, g, page)) ==> TightBut(m, g, child)
    {
      var i := IndexSlot(x, level);
      WayDown(m, g, x, level, page, up);
      err, child := Success, 0;
      if m.index[page][i].Entry? {
        child := m.index[page][i].ptr;
        if TightBut(m, g, page) {
          StepTight(m, g, x, level, page, up, child);
        }
      } else {
        var ok: bool := *;
        if !ok {
          return NoMem, 0;
        }
        var m' := Attach(m, page, i, level + 2, up);
        ghost var g' := Place(g, (level + 1, Prefix(level + 1, x)), m.next);
        WayGrown(m, g, x, level, page, up, m', g');
        if TightBut(m, g, page) {
          GrowTight(m, g, page, (level + 1, Prefix(level + 1, x)), m');
        }
        child := m.next;
        m, g := m', g';
      }
    }

    /** The growing descent from an index root: the leaf page that serves x, with all missing pages allocated. */
    method Grow(x: nat) returns (err: Error, leaf: Ptr)
      requires Shape(m, g) && StoredHeight(m) >= 2 && Prefix(StoredHeight(m), x) == 0
      modifies this`m, this`g
      ensures Shape(m, g) && SameMap(old(m), old(g), m, g)
      ensures err in {Success, NoMem}
      ensures err == Success ==> (1, Prefix(1, x)) in g.at && leaf == g.at[(1, Prefix(1, x))]
      ensures (1, Prefix(1, x)) in old(g.at) ==> err == Success && m == old(m) && g == old(g)
      ensures err == Success && old(Tight(m, g)) ==> TightBut(m, g, leaf)
    {
      var level, page, up := StoredHeight(m) - 1, m.root.ptr, AtRoot;
      RootWay(m, g, x);
      if Tight(m, g) {
        TightExcused(m, g, page);
      }
      while level >= 1
        invariant 0 <= level <= StoredHeight(m) - 1 && StoredHeight(m) == StoredHeight(old(m))
        invariant Shape(m, g) && SameMap(old(m), old(g), m, g)
        invariant OnWay(m, g, x, level + 1, page, up)
        invariant (1, Prefix(1, x)) in old(g.at) ==> m == old(m) && g == old(g)
        invariant old(Tight(m, g)) ==> TightBut(m, g, page)
      {
        ghost var m0, g0 := m, g;
        if (1, Prefix(1, x)) in old(g.at) {
          Above(old(m), old(g), level, x);
        }
        var child;
        err, child := GrowStep(x, level - 1, page, up);
        SameMapTrans(old(m), old(g), m0, g0, m, g);
        if err != Success {
          return err, 0;
        }
        page, up, level := child, AtSlot(page, IndexSlot(x, level - 1)), level - 1;
      }
      return Success, page;
    }

    /** The leaf page that serves x, with height and pages grown as needed. */
    method GetLeaf(x: nat) returns (err: Error, leaf: Ptr)
      requires Shape(m, g) && x < MAX_PAGES
      modifies this`m, this`g
      ensures Shape(m, g) && SameMap(old(m), old(g), m, g)
      ensures err in {Success, NoMem}
      ensures err == Success ==> (1, Prefix(1, x)) in g.at && leaf == g.at[(1, Prefix(1, x))]
      ensures (1, Prefix(1, x)) in old(g.at) ==> err == Success && m == old(m) && g == old(g)
      ensures err == Success && old(Tight(m, g)) ==> TightBut(m, g, leaf)
    {
      NoRootNoLeaf(m, g, x);
      err := RaiseHeight(RequiredHeight(x));
      if err != Success {
        return err, 0;
      }
      ghost var m0, g0 := m, g;
      if StoredHeight(m) >= 2 {
        RootServes(m, g, x);
        err, leaf := Grow(x);
        SameMapTrans(old(m), old(g), m0, g0, m, g);
      } else if m.root.Entry? {
        RootLeaf(m, g, x);
        leaf := m.root.ptr;
        if Tight(m, g) {
          TightExcused(m, g, leaf);
        }
      } else {
        var ok: bool := *;
        if !ok {
          return NoMem, 0;
        }
        FirstLeafAll(m, g);
        EmptyRoot(m, g);
        leaf := m.next;
        m, g := FirstLeaf(m), Place(g, (1, 0), m.next);
        SameMapTrans(old(m), old(g), m0, g0, m, g);
      }
    }

    /** Descent without allocation; `path` holds the entries of the index pages passed, the root's first. */
    method Find(x: nat) returns (found: bool, leaf: Ptr, path: seq<Location>)
      requires Shape(m, g) && x < MAX_PAGES
      ensures found <==> (1, Prefix(1, x)) in g.at
      ensures found ==> leaf == g.at[(1, Prefix(1, x))] && PathTo(m, g, x, path, 1)
    {
      found, leaf, path := false, 0, [];
      NoRootNoLeaf(m, g, x);
      if StoredHeight(m) < RequiredHeight(x) {
        return;
      }
      RootWay(m, g, x);
      var level, page, up := StoredHeight(m) - 1, m.root.ptr, AtRoot;
      while level >= 1
        invariant 0 <= level <= StoredHeight(m) - 1
        invariant OnWay(m, g, x, level + 1, page, up)
        invariant PathTo(m, g, x, path, level + 1)
      {
        WayDown(m, g, x, level - 1, page, up);
        var i := IndexSlot(x, level - 1);
        if m.index[page][i].Nil? {
          if (1, Prefix(1, x)) in g.at {
            Above(m, g, level, x);
          }
          return;
        }
        path := path + [up];
        page, up, level := m.index[page][i].ptr, AtSlot(page, i), level - 1;
      }
      found, leaf := true, page;
    }

    /** Where the entry of the leaf page for x is stored. */
    method LeafIndexEntry(x: nat) returns (at: Location)
      requires Shape(m, g) && (1, Prefix(1, x)) in g.at
      ensures OnWayAt(m, g, x, 1, at)
    {
      LeafPage(m, g, x);
      RootWay(m, g, x);
      if m.root.height == 1 {
        return AtRoot;
      }
      var level, page := m.root.height - 1, m.root.ptr;
      ghost var up := AtRoot;
      while level >= 2
        invariant 1 <= level <= m.root.height - 1
        invariant OnWay(m, g, x, level + 1, page, up)
      {
        WayDown(m, g, x, level - 1, page, up);
        Above(m, g, level, x);
        page, up, level := m.index[page][IndexSlot(x, level - 1)].ptr, AtSlot(page, IndexSlot(x, level - 1)), level - 1;
      }
      WayDown(m, g, x, 0, page, up);
      return AtSlot(page, IndexSlot(x, 0));
    }

    /** page_slice_lookup. */
    method Lookup(x: nat) returns (found: bool, cell: Cell)
      requires Valid()
      ensures found <==> x in view
      ensures found ==> cell == view[x]
    {
      found, cell := false, Cell(0, false, false);
      SliceAt(m, g, size, mapped, view, x);
      if x >= PageCount(size) {
        return;
      }
      var hit, leaf, _ := Find(x);
      if hit {
        LeafPage(m, g, x);
        cell := m.leaf[leaf][x % LEAF_CAPACITY];
        found := Bound(cell);
      }
    }

    /** page_slice_insert_page. */
    method Insert(x: nat, kva: nat, pin: bool) returns (err: Error)
      requires Valid()
      modifies this`m, this`g, this`mapped, this`view
      ensures Valid()
      ensures err in {Success, InParam, NoMem, Again}
      ensures err == InParam <==> kva == 0 || x >= PageCount(size)
      ensures err == Again <==> kva != 0 && x in old(view) && old(view)[x].kva != kva
      ensures err == Success && x !in old(view) ==> view == old(view)[x := Cell(kva, true, pin)]
      ensures err != Success || x in old(view) ==> view == old(view)
      ensures err in {InParam, Again} || x in old(view) ==> m == old(m)
      ensures err != NoMem && old(Tight(m, g)) ==> Tight(m, g)
    {
      SliceAt(m, g, size, mapped, view, x);
      if kva == 0 || x >= PageCount(size) {
        return InParam;
      }
      var leaf;
      err, leaf := GetLeaf(x);
      SameSlice(old(m), old(g), m, g, size, mapped, view);
      if err != Success {
        return;
      }
      LeafPage(m, g, x);
      SliceAt(m, g, size, mapped, view, x);
      var cell := m.leaf[leaf][x % LEAF_CAPACITY];
      if Bound(cell) {
        return if cell.kva == kva then Success else Again;
      }
      Bind(x, leaf, Cell(kva, true, pin));
    }

    method Bind(x: nat, leaf: Ptr, cell: Cell)
      requires Valid() && Shape(m, g) && x < PageCount(size) && (1, Prefix(1, x)) in g.at && leaf == g.at[(1, Prefix(1, x))]
      requires leaf in m.leaf && |m.leaf[leaf]| == LEAF_CAPACITY && !Mapped(m, g, x) && Bound(cell)
      modifies this`m, this`mapped, this`view
      ensures Valid() && view == old(view)[x := cell]
      ensures old(TightBut(m, g, leaf)) ==> Tight(m, g)
    {
      var m1 := WriteCell(m, leaf, x % LEAF_CAPACITY, cell);
      var at := LeafIndexEntry(x);
      BindSlice(m, g, size, mapped, view, x, cell, m1, at);
      m, mapped, view := IncLive(m1, at), mapped + 1, view[x := cell];
    }

    /** Takes an empty page out of its slot, frees it and counts it out of the page above. */
    method Detach(x: nat, h: nat, at: Location, up: Location, ghost path: seq<Location>)
      requires Shape(m, g) && OnWayAt(m, g, x, h, at) && OnWayAt(m, g, x, h + 1, up) && h < StoredHeight(m)
      requires ReadEntry(m, at).Entry? && ReadEntry(m, at).live == 0 && PathTo(m, g, x, path, h)
      modifies this`m, this`g
      ensures Shape(m, g) && SameMap(old(m), old(g), m, g) && StoredHeight(m) == StoredHeight(old(m))
      ensures PathTo(m, g, x, path, h)
      ensures old(TightAt(m, g, x, h)) ==> TightAt(m, g, x, h + 1)
    {
      var page := ReadEntry(m, at).ptr;
      WayLive(m, g, x, h, g.at[(h, Prefix(h, x))], at);
      WayUp(m, g, x, h, at);
      var m1 := UnlinkPage(m, at, page);
      ghost var g' := Unplace(g, page);
      DetachAll(m, g, x, h, page, at, up, m1, g');
      DetachFrame(m, at, page, up);
      var m2 := DecLive(m1, up);
      DetachPath(m, g, x, path, h, page, m2);
      if TightBut(m, g, page) {
        DetachTight(m, g, page, at.page, m2);
      }
      m, g := m2, g';
      assert m == m2 && g == g';
    }

    /** Frees the index pages on the way to x that have become empty, from the bottom up. */
    method CascadeUp(x: nat, path: seq<Location>)
      requires Shape(m, g) && PathTo(m, g, x, path, 1) && path != []
      modifies this`m, this`g
      ensures Shape(m, g) && SameMap(old(m), old(g), m, g)
      ensures old(TightAt(m, g, x, 2)) ==> Tight(m, g)
    {
      var level := |path| - 1;
      while level >= 1
        invariant 0 <= level < |path| && StoredHeight(m) == |path| + 1
        invariant Shape(m, g) && SameMap(old(m), old(g), m, g) && PathTo(m, g, x, path[..level + 1], |path| - level)
        invariant old(TightAt(m, g, x, 2)) ==> TightAt(m, g, x, |path| + 1 - level)
      {
        ghost var m0, g0 := m, g;
        var h := |path| + 1 - level;
        assert OnWayAt(m, g, x, h, path[..level + 1][level]);
        assert OnWayAt(m, g, x, h + 1, path[..level + 1][level - 1]);
        WayLive(m, g, x, h, g.at[(h, Prefix(h, x))], path[level]);
        if ReadEntry(m, path[level]).live != 0 {
          if TightAt(m, g, x, h) {
            TightAgain(m, g, g.at[(h, Prefix(h, x))]);
          }
          return;
        }
        PathShorter(m, g, x, path, level);
        Detach(x, h, path[level], path[level - 1], path[..level]);
        SameMapTrans(old(m), old(g), m0, g0, m, g);
        level := level - 1;
      }
      assert OnWayAt(m, g, x, StoredHeight(m), path[..1][0]);
      ghost var m1, g1 := m, g;
      CascadeRoot(x, path[0]);
      SameMapTrans(old(m), old(g), m1, g1, m, g);
    }

    /** An empty root is freed. */
    method CascadeRoot(x: nat, ghost at: Location)
      requires Shape(m, g) && OnWayAt(m, g, x, StoredHeight(m), at) && m.root.Entry?
      modifies this`m, this`g
      ensures Shape(m, g) && SameMap(old(m), old(g), m, g)
      ensures old(TightAt(m, g, x, StoredHeight(m))) ==> Tight(m, g)
    {
      WayLive(m, g, x, StoredHeight(m), g.at[(StoredHeight(m), Prefix(StoredHeight(m), x))], at);
      if m.root.live == 0 {
        FreeRootAll(m, g);
        m, g := FreePage(m.(root := Nil), m.root.ptr), Nowhere();
      } else {
        if TightAt(m, g, x, StoredHeight(m)) {
          TightAgain(m, g, m.root.ptr);
        }
      }
    }

    /** ps_remove_page_locked: clears the cell of x and frees every page that becomes empty by it. */
    method RemoveLocked(x: nat, missingOk: bool) returns (err: Error)
      requires Valid() && x < MAX_PAGES
      modifies this
      ensures Valid() && size == old(size)
      ensures err == if x in old(view) || missingOk then Success else NotFound
      ensures view == old(view) - {x}
      ensures released == old(released) + ReleasedAt(old(view), x)
      ensures old(Tight(m, g)) ==> Tight(m, g)
    {
      err := if missingOk then Success else NotFound;
      SliceAt(m, g, size, mapped, view, x);
      if m.root.Nil? {
        EmptyRoot(m, g);
        return;
      }
      var found, leaf, path := Find(x);
      if !found {
        return;
      }
      var at := LeafIndexEntry(x);
      LeafPage(m, g, x);
      if !Bound(m.leaf[leaf][x % LEAF_CAPACITY]) {
        return;
      }
      ClearCell(x, leaf, at, path);
      return Success;
    }

    /** Clears the bound cell of x, counts it out, and frees the leaf page if nothing is left in it. */
    method ClearCell(x: nat, leaf: Ptr, at: Location, path: seq<Location>)
      requires Valid() && Shape(m, g) && Mapped(m, g, x) && leaf == g.at[(1, Prefix(1, x))] && OnWayAt(m, g, x, 1, at) && PathTo(m, g, x, path, 1)
      modifies this
      ensures Valid() && size == old(size)
      ensures view == old(view) - {x}
      ensures released == old(released) + ReleasedAt(old(view), x)
      ensures old(Tight(m, g)) ==> Tight(m, g)
    {
      if !m.leaf[leaf][x % LEAF_CAPACITY].pin {
        released := released + [m.leaf[leaf][x % LEAF_CAPACITY].kva];
      }
      var m1 := WriteCell(m, leaf, x % LEAF_CAPACITY, Cell(0, false, false));
      SliceAt(m, g, size, mapped, view, x);
      ClearSlice(m, g, size, mapped, view, x, m1, at);
      ClearWay(m, g, x, leaf, x % LEAF_CAPACITY, Cell(0, false, false), at, path);
      var m2 := DecLive(m1, at);
      m, mapped, view := m2, mapped - 1, view - {x};
      assert m == m2 && g == old(g) && size == old(size) && mapped == old(mapped) - 1 && view == old(view) - {x};
      FreeIfEmpty(x, leaf, at, path);
    }

    method FreeIfEmpty(x: nat, leaf: Ptr, at: Location, path: seq<Location>)
      requires Valid() && Shape(m, g) && OnWayAt(m, g, x, 1, at) && PathTo(m, g, x, path, 1) && leaf == g.at[(1, Prefix(1, x))]
      modifies this`m, this`g
      ensures Valid()
      ensures old(TightBut(m, g, leaf)) ==> Tight(m, g)
    {
      WayLive(m, g, x, 1, leaf, at);
      if ReadEntry(m, at).live == 0 {
        FreeLeaf(x, at, path);
      } else if TightBut(m, g, leaf) {
        TightAgain(m, g, leaf);
      }
    }

    /** The leaf page of x is empty: it is freed, and with it the index pages that become empty. */
    method FreeLeaf(x: nat, at: Location, path: seq<Location>)
      requires Valid() && Shape(m, g) && OnWayAt(m, g, x, 1, at) && PathTo(m, g, x, path, 1)
      requires ReadEntry(m, at).Entry? && ReadEntry(m, at).live == 0
      modifies this`m, this`g
      ensures Valid()
      ensures old(TightAt(m, g, x, 1)) ==> Tight(m, g)
    {
      WayLive(m, g, x, 1, g.at[(1, Prefix(1, x))], at);
      if at.AtRoot? {
        FreeRootAll(m, g);
        m, g := FreePage(m.(root := Nil), m.root.ptr), Nowhere();
      } else {
        assert OnWayAt(m, g, x, 2, path[|path| - 1]);
        Detach(x, 1, at, path[|path| - 1], path);
        ghost var m0, g0 := m, g;
        CascadeUp(x, path);
        SameMapTrans(old(m), old(g), m0, g0, m, g);
      }
      SameSlice(old(m), old(g), m, g, size, mapped, view);
    }

    /** ps_shrink: an only child in slot 0 becomes the root, and an empty root is freed. */
    method Shrink()
      requires Valid()
      modifies this`m, this`g
      ensures Valid()
      ensures StoredHeight(m) <= StoredHeight(old(m))
      ensures old(Tight(m, g)) ==> Tight(m, g)
      ensures old(Tight(m, g)) && view == map[] ==> NoPages(m)
    {
      SliceAt(m, g, size, mapped, view, 0);
      var collapsed := false;
      while m.root.Entry? && m.root.height >= 2 && m.root.live == 1
        invariant Shape(m, g) && SameMap(old(m), old(g), m, g)
        invariant StoredHeight(m) <= StoredHeight(old(m)) && !collapsed
        invariant old(Tight(m, g)) ==> Tight(m, g)
        decreases StoredHeight(m)
      {
        RootIndex(m, g);
        if m.index[m.root.ptr][0].Nil? {
          break;
        }
        CollapseAll(m, g);
        SameMapTrans(old(m), old(g), m, g, CollapseRoot(m), Unplace(g, m.root.ptr));
        if Tight(m, g) {
          CollapseTight(m, g, m.root.ptr, CollapseRoot(m));
        }
        m, g := CollapseRoot(m), Unplace(g, m.root.ptr);
        if m.root.height == 1 {
          // the leaf page has become the root: nothing more is looked at in this pass
          collapsed := true;
          break;
        }
      }
      SameSlice(old(m), old(g), m, g, size, mapped, view);
      ShrinkEnd(m, g, size, mapped, view);
      if m.root.Entry? && m.root.live == 0 && !collapsed {
        FreeRootAll(m, g);
        SameSlice(m, g, ClearRoot(m), Nowhere(), size, mapped, view);
        m, g := FreePage(m.(root := Nil), m.root.ptr), Nowhere();
      }
    }

    /** page_slice_remove_page. */
    method Remove(x: nat) returns (err: Error)
      requires Valid()
      modifies this
      ensures Valid() && size == old(size)
      ensures err == if x >= PageCount(size) then InParam else if x in old(view) then Success else NotFound
      ensures view == old(view) - {x}
      ensures released == old(released) + ReleasedAt(old(view), x)
      ensures old(Tight(m, g)) ==> Tight(m, g)
      ensures err == Success && old(Tight(m, g)) && view == map[] ==> NoPages(m)
    {
      SliceAt(m, g, size, mapped, view, x);
      if x >= PageCount(size) {
        return InParam;
      }
      err := RemoveLocked(x, false);
      if err == Success {
        for pass := 0 to MAX_HEIGHT
          invariant Valid() && size == old(size) && view == old(view) - {x}
          invariant released == old(released) + ReleasedAt(old(view), x)
          invariant old(Tight(m, g)) ==> Tight(m, g)
          invariant pass > 0 && old(Tight(m, g)) && view == map[] ==> NoPages(m)
        {
          Shrink();
        }
      }
    }

    method CutLast(end: nat, ghost was: map<nat, Cell>)
      requires Valid() && 0 < end <= MAX_PAGES && view == Restrict(was, end)
      modifies this
      ensures Valid() && size == old(size) && view == Restrict(was, end - 1)
      ensures released == old(released) + ReleasedAt(was, end - 1)
      ensures old(Tight(m, g)) ==> Tight(m, g)
    {
      CutStep(was, end);
      var _ := RemoveLocked(end - 1, true);
    }

    /** Removes every page from the old end down to the new one. */
    method Cut(newPages: nat)
      requires Valid() && newPages <= PageCount(size)
      modifies this
      ensures Valid() && size == old(size) && view == Restrict(old(view), newPages)
      ensures released == old(released) + Drops(old(view), newPages, PageCount(old(size)) - newPages)
      ensures old(Tight(m, g)) ==> Tight(m, g)
    {
      SliceAt(m, g, size, mapped, view, 0);
      ghost var was := view;
      BelowSize(m, g, size, mapped, view);
      var end := PageCount(size);
      while end > newPages
        invariant newPages <= end <= PageCount(size) <= MAX_PAGES && size == old(size) && Valid()
        invariant view == Restrict(was, end)
        invariant released == old(released) + Drops(was, end, PageCount(size) - end)
        invariant old(Tight(m, g)) ==> Tight(m, g)
      {
        CutLast(end, was);
        end := end - 1;
      }
    }

    /** page_slice_set_size; size zero destroys the slice. */
    method SetSize(newSize: nat) returns (err: Error, alive: bool)
      requires Valid()
      modifies this
      ensures alive <==> newSize > 0
      ensures err == if newSize > MAX_BYTES then Overflow else Success
      ensures alive ==> Valid()
      ensures newSize == 0 ==> NoPages(m) && released == old(released) + Releases(old(view), 0, MAX_PAGES)
      ensures newSize > MAX_BYTES ==> m == old(m) && size == old(size) && view == old(view) && released == old(released)
      ensures 0 < newSize <= MAX_BYTES ==>
                && size == newSize && view == Restrict(old(view), PageCount(newSize))
                && released == old(released) + Drops(old(view), PageCount(newSize), PagesCut(old(size), newSize))
      ensures alive && old(Tight(m, g)) ==> Tight(m, g)
      ensures alive && err == Success && newSize != old(size) && old(Tight(m, g)) && view == map[] ==> NoPages(m)
    {
      if newSize == 0 {
        Destroy();
        return Success, false;
      }
      err := ChangeSize(newSize);
      alive := true;
    }

    method ChangeSize(newSize: nat) returns (err: Error)
      requires Valid() && newSize > 0
      modifies this
      ensures Valid()
      ensures err == if newSize > MAX_BYTES then Overflow else Success
      ensures newSize > MAX_BYTES ==> m == old(m) && size == old(size) && view == old(view) && released == old(released)
      ensures newSize <= MAX_BYTES ==> size == newSize && view == Restrict(old(view), PageCount(newSize))
      ensures newSize <= MAX_BYTES ==>
                released == old(released) + Drops(old(view), PageCount(newSize), PagesCut(old(size), newSize))
      ensures old(Tight(m, g)) ==> Tight(m, g)
      ensures err == Success && newSize != old(size) && old(Tight(m, g)) && view == map[] ==>
                NoPages(m)
    {
      if newSize > MAX_BYTES {
        return Overflow;
      }
      BelowSize(m, g, size, mapped, view);
      if newSize == size {
        return Success;
      }
      if newSize < size {
        Cut(PageCount(newSize));
      }
      Resize(m, g, size, newSize, mapped, view, old(view));
      size := newSize;
      Shrink();
      return Success;
    }

    /** Gives a page back; it must be there. */
    method Free(p: Ptr)
      requires p in m.index || p in m.leaf
      modifies this`m
      ensures Pruned(old(m), m, {p})
    {
      m := FreePage(m, p);
    }

    /** ps_free_leaf_page. */
    method FreeLeafPage(p: Ptr)
      requires p in m.leaf && p !in m.index
      modifies this`m, this`released
      ensures Pruned(old(m), m, {p}) && released == old(released) + LeafReleases(old(m).leaf[p])
    {
      var i := 0;
      var cells := m.leaf[p];
      while i < |cells|
        invariant 0 <= i <= |cells| && p in m.leaf && |m.leaf[p]| == |cells|
        invariant m == old(m).(leaf := old(m).leaf[p := m.leaf[p]])
        invariant forall j :: i <= j < |cells| ==> m.leaf[p][j] == cells[j]
        invariant released == old(released) + LeafReleases(cells[..i])
      {
        var c := m.leaf[p][i];
        m := WriteCell(m, p, i, Cell(0, false, false));
        if c.kva != 0 && !c.pin {
          released := released + [c.kva];
        }
        assert cells[..i + 1][..i] == cells[..i];
        i := i + 1;
      }
      assert cells[..|cells|] == cells;
      Free(p);
    }

    /** ps_free_index_page_recursive: everything at and below position y is given back, each page once. */
    method FreeIndexPage(p: Ptr, height: nat, ghost k: nat, ghost t: Tree)
      requires t.Ok() && height >= 2 && (height, k) in t.g.at && t.g.at[(height, k)] == p
      requires Intact(m, t.m, t.g, (height, k))
      modifies this`m, this`released
      ensures Pruned(old(m), m, Below(t.g, (height, k)))
      ensures released == old(released) + Releases(t.view, k * Span(height), Span(height))
      decreases height, 2
    {
      FreeIndexStart(t.m, t.g, (height, k), m);
      NoSlotsFreed(t, p, (height, k), m, released);
      FreeSlots(p, height, INDEX_CAPACITY, k, t);
      AllSlotsFreed(t, p, (height, k), old(m), old(released), m, released);
      ghost var m1 := m;
      Free(p);
      FreeIndexEnd(t.m, t.g, (height, k), old(m), m1, m);
    }

    /** The first n slots of it. */
    method FreeSlots(p: Ptr, height: nat, n: nat, ghost k: nat, ghost t: Tree)
      requires n <= INDEX_CAPACITY && height >= 2 && IndexPage(t, p, (height, k), m)
      requires SlotsFreed(t, p, (height, k), m, released, m, released, 0)
      modifies this`m, this`released
      ensures SlotsFreed(t, p, (height, k), old(m), old(released), m, released, n)
      decreases height, 1
    {
      ghost var before, gone := m, released;
      var i := 0;
      while i < n
        invariant 0 <= i <= n && SlotsFreed(t, p, (height, k), before, gone, m, released, i)
      {
        FreeSlot(p, height, i, k, t, before, gone);
        i := i + 1;
      }
    }

    /** One slot of it. */
    method FreeSlot(p: Ptr, height: nat, i: nat, ghost k: nat, ghost t: Tree, ghost before: Memory, ghost gone: seq<nat>)
      requires i < INDEX_CAPACITY && height >= 2 && IndexPage(t, p, (height, k), before)
      requires SlotsFreed(t, p, (height, k), before, gone, m, released, i)
      modifies this`m, this`released
      ensures SlotsFreed(t, p, (height, k), before, gone, m, released, i + 1)
      decreases height, 0
    {
      ghost var y, c := (height, k), Child((height, k), i);
      assert OpenSlots(Key) && OpenPage(Key);
      SlotFacts(t.m, t.g, t.size, t.mapped, t.view, y, i, before, m, p);
      var e := m.index[p][i];
      if e.Nil? {
        BelowNothing(t.m, t.g, c);
        assert BelowSlots(t.g, y, i) + {} == BelowSlots(t.g, y, i);
      } else {
        ghost var m1 := m;
        FreeBelow(e, c, t);
        PrunedTrans(before, m1, m, BelowSlots(t.g, y, i), Below(t.g, c));
      }
      NotPruned(before, m, BelowSlots(t.g, y, i + 1), p);
    }

    /** What an entry in use leads to: a leaf page or an index page. */
    method FreeBelow(e: Entry, ghost c: Position, ghost t: Tree)
      requires t.Ok() && c in t.g.at && c.0 >= 1 && Intact(m, t.m, t.g, c)
      requires e.Entry? && e.ptr == t.g.at[c] && e.height == c.0 + 1
      modifies this`m, this`released
      ensures Pruned(old(m), m, Below(t.g, c)) && released == old(released) + Releases(t.view, c.1 * Span(c.0), Span(c.0))
      decreases e.height - 1, 3
    {
      SlotIntact(m, t.m, t.g, c);
      if e.height == 2 {
        LeafBelow(t.m, t.g, c);
        LeafReleasesAll(t.m, t.g, t.size, t.mapped, t.view, c.1);
        FreeLeafPage(e.ptr);
      } else {
        FreeIndexPage(e.ptr, e.height - 1, c.1, t);
      }
    }

    /** page_slice_destroy: every page of the tree is given back once, and every owned data page once. */
    method Destroy()
      requires Valid()
      modifies this
      ensures NoPages(m) && released == old(released) + Releases(old(view), 0, MAX_PAGES)
    {
      SliceAt(m, g, size, mapped, view, 0);
      if m.root.Nil? {
        EmptyRoot(m, g);
        EmptyReleases(m, g, size, mapped, view, 0);
        return;
      }
      RootAt(m, g);
      EmptyReleases(m, g, size, mapped, view, Span(m.root.height));
      ghost var m0 := m;
      if m.root.height == 1 {
        LeafBelow(m, g, (1, 0));
        LeafReleasesAll(m, g, size, mapped, view, 0);
        FreeLeafPage(m.root.ptr);
      } else {
        FreeIndexPage(m.root.ptr, m.root.height, 0, Tree(m, g, size, mapped, view));
      }
      AllBelowRoot(m0, g, m);
      m := m.(root := Nil);
    }
  }

  /** page_slice_create: refuses a size of zero or beyond the limit, or when memory is short. */
  method Create(bytes: nat, memOk: bool) returns (slice: Slice?)
    ensures slice != null <==> memOk && 0 < bytes <= MAX_BYTES
    ensures slice != null ==> fresh(slice) && slice.Valid() && slice.size == bytes && slice.view == map[] && Tight(slice.m, slice.g)
  {
    if bytes == 0 || bytes > MAX_BYTES || !memOk {
      return null;
    }
    slice := new Slice(bytes);
  }
}

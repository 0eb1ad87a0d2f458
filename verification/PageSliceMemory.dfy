/**
 The memory of a page slice: index pages of 512 packed entries, leaf pages of 128 cells, reached
 from one root entry, together with the geometry that tells which offsets a page serves.
 */
module PageSliceMemory {

  const LEAF_CAPACITY: nat := 128
  const INDEX_CAPACITY: nat := 512
  /** Greatest stored height: three index levels above the leaf pages. */
  const MAX_HEIGHT: nat := 4
  /** Page offsets have 7 + 3 * 9 bits. */
  const MAX_PAGES: nat := 0x4_0000_0000

  type Ptr = nat

  /** A packed index entry: pointer, number of slots in use in the page it points to, and height. */
  datatype Entry = Nil | Entry(ptr: Ptr, height: nat, live: nat)

  /** A leaf entry. Address and valid flag are written together, so an address never comes without the flag. */
  datatype LeafEntry = Cell(kva: nat, valid: bool, pin: bool)
  type Cell = c: LeafEntry | c.kva == 0 || c.valid witness LeafEntry.Cell(0, false, false)

  /** It maps a page when it is valid and its address is not zero. */
  predicate Bound(c: Cell) { c.valid && c.kva != 0 }

  datatype Memory = Memory(root: Entry, index: map<Ptr, seq<Entry>>, leaf: map<Ptr, seq<Cell>>, next: Ptr)

  /** Where an entry is stored. */
  datatype Location = AtRoot | AtSlot(page: Ptr, slot: nat)

  /** Height and prefix of a page: page (h, k) serves the offsets whose prefix at height h is k. */
  type Position = (nat, nat)

  /** The geometry of the pages in use: which page is at a position, and back. */
  datatype Geometry = Geometry(at: map<Position, Ptr>, pos: map<Ptr, Position>)

  /** The prefix of a page offset at height h: which page of that height serves it. */
  function Prefix(h: nat, x: nat): nat
  {
    if h == 0 then x else if h == 1 then x / LEAF_CAPACITY else Prefix(h - 1, x) / INDEX_CAPACITY
  }

  function StoredHeight(m: Memory): nat { if m.root.Nil? then 0 else m.root.height }

  function UsedEntries(page: seq<Entry>): nat
  {
    if page == [] then 0 else (if page[0].Nil? then 0 else 1) + UsedEntries(page[1..])
  }

  function BoundCells(page: seq<Cell>): nat
  {
    if page == [] then 0 else (if Bound(page[0]) then 1 else 0) + BoundCells(page[1..])
  }

  /** What the live counter of the entry that points to page p counts. */
  function Live(m: Memory, p: Ptr): nat
  {
    if p in m.leaf then BoundCells(m.leaf[p]) else if p in m.index then UsedEntries(m.index[p]) else 0
  }

  function Child(x: Position, i: nat): Position
    requires x.0 > 0
  {
    (x.0 - 1, x.1 * INDEX_CAPACITY + i)
  }

  function Parent(x: Position): Position { (x.0 + 1, x.1 / INDEX_CAPACITY) }

  /** Slot i of page p is right; the counter of an entry that points to `pardon` is not looked at. */
  ghost predicate SlotOk(m: Memory, g: Geometry, p: Ptr, i: nat, pardon: Ptr)
    requires p in m.index && i < |m.index[p]| && p in g.pos && g.pos[p].0 > 0
  {
    var e, child := m.index[p][i], Child(g.pos[p], i);
    if e.Nil? then child !in g.at
    else child in g.at && e.ptr == g.at[child] && e.height == g.pos[p].0 && (e.ptr != pardon ==> e.live == Live(m, e.ptr))
  }

  ghost predicate GeometryOk(m: Memory, g: Geometry)
  {
    && (forall x :: x in g.at ==> g.at[x] in g.pos && g.pos[g.at[x]] == x)
    && (forall p :: p in g.pos ==> p < m.next && 1 <= g.pos[p].0 <= StoredHeight(m) && g.pos[p] in g.at && g.at[g.pos[p]] == p)
    && (forall p :: p in m.index <==> p in g.pos && g.pos[p].0 >= 2)
    && (forall p :: p in m.leaf <==> p in g.pos && g.pos[p].0 == 1)
  }

  ghost predicate RootOk(m: Memory, g: Geometry, pardon: Ptr)
  {
    && (m.root.Nil? ==> g.at == map[])
    && (m.root.Entry? ==>
          && 1 <= m.root.height <= MAX_HEIGHT
          && (m.root.height, 0) in g.at && g.at[(m.root.height, 0)] == m.root.ptr
          && (m.root.ptr != pardon ==> m.root.live == Live(m, m.root.ptr)))
    && (forall x: Position :: x in g.at && x.0 == StoredHeight(m) ==> x.1 == 0)
  }

  /** Every page but the root hangs below a page one level up. */
  ghost predicate Connected(m: Memory, g: Geometry)
  {
    forall x: Position {:trigger Parent(x)} :: x in g.at && x.0 < StoredHeight(m) ==> Parent(x) in g.at
  }

  ghost predicate PagesOk(m: Memory, g: Geometry, pardon: Ptr)
    requires GeometryOk(m, g)
  {
    && (forall p :: p in m.leaf ==> |m.leaf[p]| == LEAF_CAPACITY)
    && (forall p :: p in m.index ==> |m.index[p]| == INDEX_CAPACITY)
    && (forall p, i :: p in m.index && 0 <= i < INDEX_CAPACITY ==> SlotOk(m, g, p, i, pardon))
  }

  /** Well shaped, except that the counter for page `pardon` may be off. */
  ghost predicate ShapeBut(m: Memory, g: Geometry, pardon: Ptr)
  {
    GeometryOk(m, g) && RootOk(m, g, pardon) && Connected(m, g) && PagesOk(m, g, pardon)
  }

  /**
   The radix tree is well shaped: pages and positions correspond one to one, entries point where
   their position says, and every live counter is exact (no page is at the next fresh address).
   */
  ghost predicate WellShaped(m: Memory, g: Geometry)
  {
    ShapeBut(m, g, m.next)
  }

  /** A key for Shape below: its definition is used only where `Open` is mentioned. */
  datatype Key = Key
  ghost predicate Open(k: Key) { true }
  ghost predicate OpenMap(k: Key) { true }
  ghost predicate OpenTight(k: Key) { true }

  /** WellShaped, folded so that clients carry it around without its contents. */
  ghost predicate Shape(m: Memory, g: Geometry)
  {
    forall k: Key {:trigger Open(k)} :: Open(k) ==> WellShaped(m, g)
  }

  lemma Unfold(m: Memory, g: Geometry)
    requires Shape(m, g)
    ensures WellShaped(m, g)
  {
    assert Open(Key);
  }

  lemma Fold(m: Memory, g: Geometry)
    requires WellShaped(m, g)
    ensures Shape(m, g)
  {
  }

  // ---------------------------------------------------------------------------------------------
  // Counting
  // ---------------------------------------------------------------------------------------------

  lemma {:induction false} UsedUpdate(page: seq<Entry>, i: nat, e: Entry)
    requires i < |page|
    ensures UsedEntries(page[i := e])
            == UsedEntries(page) - (if page[i].Nil? then 0 else 1) + (if e.Nil? then 0 else 1)
  {
    if i == 0 {
      assert page[i := e][1..] == page[1..];
    } else {
      assert page[i := e][1..] == page[1..][i - 1 := e];
      UsedUpdate(page[1..], i - 1, e);
    }
  }

  lemma {:induction false} UsedBounds(page: seq<Entry>)
    ensures UsedEntries(page) <= |page|
    ensures UsedEntries(page) == 0 <==> forall i :: 0 <= i < |page| ==> page[i].Nil?
    ensures UsedEntries(page) == |page| ==> forall i :: 0 <= i < |page| ==> !page[i].Nil?
  {
    if page != [] {
      UsedBounds(page[1..]);
      assert forall i :: 1 <= i < |page| ==> page[i] == page[1..][i - 1];
    }
  }

  lemma {:induction false} BoundUpdate(page: seq<Cell>, i: nat, c: Cell)
    requires i < |page|
    ensures BoundCells(page[i := c])
            == BoundCells(page) - (if Bound(page[i]) then 1 else 0) + (if Bound(c) then 1 else 0)
  {
    if i == 0 {
      assert page[i := c][1..] == page[1..];
    } else {
      assert page[i := c][1..] == page[1..][i - 1 := c];
      BoundUpdate(page[1..], i - 1, c);
    }
  }

  lemma {:induction false} BoundBounds(page: seq<Cell>)
    ensures BoundCells(page) <= |page|
    ensures BoundCells(page) == 0 <==> forall i :: 0 <= i < |page| ==> !Bound(page[i])
    ensures BoundCells(page) == |page| ==> forall i :: 0 <= i < |page| ==> Bound(page[i])
  {
    if page != [] {
      BoundBounds(page[1..]);
      assert forall i :: 1 <= i < |page| ==> page[i] == page[1..][i - 1];
    }
  }

  // ---------------------------------------------------------------------------------------------
  // What the slice maps
  // ---------------------------------------------------------------------------------------------

  /** The offset is bound to a page. */
  predicate Mapped(m: Memory, g: Geometry, x: nat)
  {
    var leaf := (1, x / LEAF_CAPACITY);
    && leaf in g.at && g.at[leaf] in m.leaf && x % LEAF_CAPACITY < |m.leaf[g.at[leaf]]|
    && Bound(m.leaf[g.at[leaf]][x % LEAF_CAPACITY])
  }

  function CellAt(m: Memory, g: Geometry, x: nat): Cell
    requires Mapped(m, g, x)
  {
    m.leaf[g.at[(1, x / LEAF_CAPACITY)]][x % LEAF_CAPACITY]
  }

  /** The finite map from page offset to page that a slice stands for. */
  ghost function Contents(m: Memory, g: Geometry): map<nat, Cell>
  {
    map x: nat | x < MAX_PAGES && Mapped(m, g, x) :: CellAt(m, g, x)
  }

  // ---------------------------------------------------------------------------------------------
  // The descent
  // ---------------------------------------------------------------------------------------------

  /** The offset is below what the root's height can serve. */
  predicate Reaches(m: Memory, x: nat) { m.root.Entry? && Prefix(m.root.height, x) == 0 }

  lemma PrefixStep(h: nat, x: nat)
    requires h >= 1
    ensures Child((h + 1, Prefix(h + 1, x)), Prefix(h, x) % INDEX_CAPACITY) == (h, Prefix(h, x))
    ensures Parent((h, Prefix(h, x))) == (h + 1, Prefix(h + 1, x))
  {
  }

  /** With a leaf page in place the whole path above it is in place. */
  lemma {:induction false} PathAbove(m: Memory, g: Geometry, h: nat, x: nat)
    requires Connected(m, g) && 1 <= h <= StoredHeight(m) && (1, Prefix(1, x)) in g.at
    ensures (h, Prefix(h, x)) in g.at
    decreases h
  {
    if h > 1 {
      PathAbove(m, g, h - 1, x);
      PrefixStep(h - 1, x);
      assert Connected(m, g) && Parent((h - 1, Prefix(h - 1, x))) in g.at;
    }
  }

  lemma MappedReaches(m: Memory, g: Geometry, x: nat)
    requires WellShaped(m, g) && (1, Prefix(1, x)) in g.at
    ensures Reaches(m, x)
  {
    var p := g.at[(1, Prefix(1, x))];
    assert p in g.pos;
    PathAbove(m, g, StoredHeight(m), x);
  }

  /** One step down: the slot of page (h + 1, prefix) leads to page (h, prefix) if there is one. */
  lemma StepDown(m: Memory, g: Geometry, h: nat, x: nat)
    requires WellShaped(m, g) && 1 <= h && (h + 1, Prefix(h + 1, x)) in g.at
    ensures var p, i := g.at[(h + 1, Prefix(h + 1, x))], Prefix(h, x) % INDEX_CAPACITY;
            && p in m.index && i < |m.index[p]|
            && (m.index[p][i].Nil? <==> (h, Prefix(h, x)) !in g.at)
            && (m.index[p][i].Entry? ==> m.index[p][i].ptr == g.at[(h, Prefix(h, x))] && m.index[p][i].height == h + 1
                                         && m.index[p][i].live == Live(m, m.index[p][i].ptr))
  {
    var p, i := g.at[(h + 1, Prefix(h + 1, x))], Prefix(h, x) % INDEX_CAPACITY;
    PrefixStep(h, x);
    assert p in g.pos && g.pos[p] == (h + 1, Prefix(h + 1, x));
    assert SlotOk(m, g, p, i, m.next);
  }

  // ---------------------------------------------------------------------------------------------
  // Entries and their live counters
  // ---------------------------------------------------------------------------------------------

  predicate Stored(m: Memory, at: Location)
  {
    at.AtRoot? || (at.page in m.index && at.slot < |m.index[at.page]|)
  }

  function ReadEntry(m: Memory, at: Location): Entry
    requires Stored(m, at)
  {
    if at.AtRoot? then m.root else m.index[at.page][at.slot]
  }

  function WriteEntry(m: Memory, at: Location, e: Entry): Memory
    requires Stored(m, at)
  {
    if at.AtRoot? then m.(root := e) else m.(index := m.index[at.page := m.index[at.page][at.slot := e]])
  }

  /** The greatest live count, by whether the entry is the root and by its height. */
  function LiveCap(isRoot: bool, height: nat): nat
  {
    if height == 0 || height > MAX_HEIGHT then 0
    else if height == 1 || (height == 2 && !isRoot) then LEAF_CAPACITY
    else INDEX_CAPACITY
  }

  function IncLive(m: Memory, at: Location): Memory
    requires Stored(m, at)
  {
    var e := ReadEntry(m, at);
    if e.Entry? && e.live < LiveCap(at.AtRoot?, e.height) then WriteEntry(m, at, e.(live := e.live + 1)) else m
  }

  function DecLive(m: Memory, at: Location): Memory
    requires Stored(m, at)
  {
    var e := ReadEntry(m, at);
    if e.Entry? && e.live > 0 then WriteEntry(m, at, e.(live := e.live - 1)) else m
  }

  /** Where the entry that points to page p is stored. */
  ghost function Home(m: Memory, g: Geometry, p: Ptr): Location
    requires p in g.pos
  {
    if g.pos[p].0 == StoredHeight(m) || Parent(g.pos[p]) !in g.at then AtRoot
    else AtSlot(g.at[Parent(g.pos[p])], g.pos[p].1 % INDEX_CAPACITY)
  }

  /** The slot above a page that is not the root points to it. */
  lemma SlotAbove(m: Memory, g: Geometry, p: Ptr, pardon: Ptr)
    requires GeometryOk(m, g) && Connected(m, g) && PagesOk(m, g, pardon) && p in g.pos && g.pos[p].0 < StoredHeight(m)
    ensures var x, i := g.pos[p], g.pos[p].1 % INDEX_CAPACITY;
            && Parent(x) in g.at && g.at[Parent(x)] in g.pos && g.pos[g.at[Parent(x)]] == Parent(x)
            && g.at[Parent(x)] in m.index && i < |m.index[g.at[Parent(x)]]|
            && var e := m.index[g.at[Parent(x)]][i];
               e.Entry? && e.ptr == p && e.height == x.0 + 1 && (p != pardon ==> e.live == Live(m, p))
  {
    var x := g.pos[p];
    assert x in g.at && Parent(x) in g.at;
    var q := g.at[Parent(x)];
    ChildOfParent(x);
    assert SlotOk(m, g, q, x.1 % INDEX_CAPACITY, pardon);
  }

  /** The home of a page holds an entry that points to it. */
  lemma HomeOk(m: Memory, g: Geometry, p: Ptr, pardon: Ptr)
    requires ShapeBut(m, g, pardon) && p in g.pos
    ensures var at := Home(m, g, p);
            && Stored(m, at) && ReadEntry(m, at).Entry? && ReadEntry(m, at).ptr == p
            && (p != pardon ==> ReadEntry(m, at).live == Live(m, p))
            && ReadEntry(m, at).height == (if at.AtRoot? then g.pos[p].0 else g.pos[p].0 + 1)
            && (at.AtRoot? <==> g.pos[p].0 == StoredHeight(m))
            && (at.AtSlot? ==> at.page in g.pos && g.pos[at.page] == Parent(g.pos[p]) && at.page != p && at.slot < INDEX_CAPACITY)
  {
    if g.pos[p].0 < StoredHeight(m) {
      SlotAbove(m, g, p, pardon);
    }
  }

  /** No other entry points to the page. */
  lemma HomeUnique(m: Memory, g: Geometry, p: Ptr, q: Ptr, i: nat, pardon: Ptr)
    requires ShapeBut(m, g, pardon) && p in g.pos && q in m.index && i < INDEX_CAPACITY
    requires m.index[q][i].Entry? && m.index[q][i].ptr == p
    ensures Home(m, g, p) == AtSlot(q, i)
  {
    assert SlotOk(m, g, q, i, pardon);
    ParentOfChild(g.pos[q], i);
  }

  lemma ParentOfChild(x: Position, i: nat)
    requires x.0 > 0 && i < INDEX_CAPACITY
    ensures Parent(Child(x, i)) == x && Child(x, i).1 % INDEX_CAPACITY == i
  {
  }

  lemma ChildOfParent(y: Position)
    ensures Child(Parent(y), y.1 % INDEX_CAPACITY) == y
  {
  }

  /** The cap of a page's entry is the page's capacity, so an exact counter never hits it early. */
  lemma CapIsCapacity(m: Memory, g: Geometry, p: Ptr, pardon: Ptr)
    requires ShapeBut(m, g, pardon) && p in g.pos
    ensures Stored(m, Home(m, g, p)) && ReadEntry(m, Home(m, g, p)).Entry?
    ensures LiveCap(Home(m, g, p).AtRoot?, ReadEntry(m, Home(m, g, p)).height)
            == if p in m.leaf then LEAF_CAPACITY else INDEX_CAPACITY
  {
    HomeOk(m, g, p, pardon);
  }

  /** Rewriting an entry that stays in use changes no live count. */
  lemma WriteKeepsLive(m: Memory, at: Location, e: Entry, p: Ptr)
    requires Stored(m, at) && ReadEntry(m, at).Entry? && e.Entry?
    ensures Live(WriteEntry(m, at, e), p) == Live(m, p)
  {
    if at.AtSlot? {
      UsedUpdate(m.index[at.page], at.slot, e);
    }
  }

  /** Setting the counter of page p touches nothing but that counter. */
  lemma SetLiveCounts(m: Memory, at: Location, n: nat, m': Memory)
    requires Stored(m, at) && ReadEntry(m, at).Entry?
    requires m' == WriteEntry(m, at, ReadEntry(m, at).(live := n))
    ensures forall q :: Live(m', q) == Live(m, q)
  {
    forall q
      ensures Live(m', q) == Live(m, q)
    {
      WriteKeepsLive(m, at, ReadEntry(m, at).(live := n), q);
    }
  }

  lemma SetLivePages(m: Memory, g: Geometry, p: Ptr, n: nat, at: Location, m': Memory)
    requires GeometryOk(m, g) && GeometryOk(m', g) && PagesOk(m, g, p) && at.AtSlot?
    requires Stored(m, at) && ReadEntry(m, at).Entry? && ReadEntry(m, at).ptr == p
    requires m' == WriteEntry(m, at, ReadEntry(m, at).(live := n))
    ensures PagesOk(m', g, p)
  {
    SetLiveCounts(m, at, n, m');
    forall q, i | q in m'.index && 0 <= i < INDEX_CAPACITY
      ensures SlotOk(m', g, q, i, p)
    {
      assert SlotOk(m, g, q, i, p);
    }
  }

  /** Setting the counter of page p touches nothing but that counter. */
  lemma SetLiveShape(m: Memory, g: Geometry, p: Ptr, n: nat, at: Location, m': Memory)
    requires ShapeBut(m, g, p) && p in g.pos && at == Home(m, g, p)
    requires Stored(m, at) && ReadEntry(m, at).Entry?
    requires m' == WriteEntry(m, at, ReadEntry(m, at).(live := n))
    ensures ShapeBut(m', g, p) && Home(m', g, p) == at
    ensures forall q :: Live(m', q) == Live(m, q)
  {
    HomeOk(m, g, p, p);
    SetLiveCounts(m, at, n, m');
    SetLiveGeometry(m, g, n, at, m');
    if at.AtSlot? {
      SetLivePages(m, g, p, n, at, m');
    } else {
      RootLivePages(m, g, p, m');
    }
  }

  lemma SetLiveGeometry(m: Memory, g: Geometry, n: nat, at: Location, m': Memory)
    requires GeometryOk(m, g) && Stored(m, at) && ReadEntry(m, at).Entry?
    requires m' == WriteEntry(m, at, ReadEntry(m, at).(live := n))
    ensures GeometryOk(m', g) && StoredHeight(m') == StoredHeight(m)
  {
    assert m'.index.Keys == m.index.Keys;
  }

  lemma RootLivePages(m: Memory, g: Geometry, p: Ptr, m': Memory)
    requires GeometryOk(m, g) && GeometryOk(m', g) && PagesOk(m, g, p) && m'.index == m.index && m'.leaf == m.leaf
    ensures PagesOk(m', g, p)
  {
    forall q, i | q in m'.index && 0 <= i < INDEX_CAPACITY
      ensures SlotOk(m', g, q, i, p)
    {
      assert SlotOk(m, g, q, i, p);
    }
  }

  /** With its counter right again the memory is well shaped. */
  lemma PardonLifted(m: Memory, g: Geometry, p: Ptr)
    requires ShapeBut(m, g, p) && p in g.pos && ReadEntryLive(m, g, p) == Live(m, p)
    ensures WellShaped(m, g)
  {
    HomeOk(m, g, p, p);
    forall q, i | q in m.index && 0 <= i < INDEX_CAPACITY
      ensures SlotOk(m, g, q, i, m.next)
    {
      assert SlotOk(m, g, q, i, p);
      if m.index[q][i].Entry? && m.index[q][i].ptr == p {
        HomeUnique(m, g, p, q, i, p);
      }
    }
  }

  ghost function ReadEntryLive(m: Memory, g: Geometry, p: Ptr): int
    requires p in g.pos
  {
    var at := Home(m, g, p);
    if Stored(m, at) && ReadEntry(m, at).Entry? then ReadEntry(m, at).live else -1
  }

  lemma LiveBounds(m: Memory, p: Ptr)
    requires p in m.leaf ==> |m.leaf[p]| == LEAF_CAPACITY
    requires p in m.index ==> |m.index[p]| == INDEX_CAPACITY
    ensures Live(m, p) <= if p in m.leaf then LEAF_CAPACITY else INDEX_CAPACITY
  {
    if p in m.leaf {
      BoundBounds(m.leaf[p]);
    } else if p in m.index {
      UsedBounds(m.index[p]);
    }
  }

  /** A counter that is one behind is below its cap, so counting up sets it right. */
  lemma IncCounts(m: Memory, g: Geometry, p: Ptr)
    requires ShapeBut(m, g, p) && p in g.pos && ReadEntryLive(m, g, p) == Live(m, p) - 1
    ensures var at := Home(m, g, p);
            && Stored(m, at) && ReadEntry(m, at).Entry?
            && IncLive(m, at) == WriteEntry(m, at, ReadEntry(m, at).(live := Live(m, p)))
  {
    CapIsCapacity(m, g, p, p);
    IncCountsAt(m, p, Home(m, g, p));
  }

  lemma IncCountsAt(m: Memory, p: Ptr, at: Location)
    requires p in m.leaf ==> |m.leaf[p]| == LEAF_CAPACITY
    requires p in m.index ==> |m.index[p]| == INDEX_CAPACITY
    requires Stored(m, at) && ReadEntry(m, at).Entry? && ReadEntry(m, at).live == Live(m, p) - 1
    requires LiveCap(at.AtRoot?, ReadEntry(m, at).height) == if p in m.leaf then LEAF_CAPACITY else INDEX_CAPACITY
    ensures IncLive(m, at) == WriteEntry(m, at, ReadEntry(m, at).(live := Live(m, p)))
  {
    LiveBounds(m, p);
  }

  /** The counter is one behind: counting up repairs it. */
  lemma IncRepairs(m: Memory, g: Geometry, p: Ptr)
    requires ShapeBut(m, g, p) && p in g.pos && ReadEntryLive(m, g, p) == Live(m, p) - 1
    ensures Stored(m, Home(m, g, p)) && WellShaped(IncLive(m, Home(m, g, p)), g)
    ensures forall q :: Live(IncLive(m, Home(m, g, p)), q) == Live(m, q)
  {
    IncCounts(m, g, p);
    var m' := IncLive(m, Home(m, g, p));
    SetLiveShape(m, g, p, Live(m, p), Home(m, g, p), m');
    PardonLifted(m', g, p);
  }

  /** The counter is one ahead: counting down repairs it. */
  lemma DecRepairs(m: Memory, g: Geometry, p: Ptr)
    requires ShapeBut(m, g, p) && p in g.pos && ReadEntryLive(m, g, p) == Live(m, p) + 1
    ensures Stored(m, Home(m, g, p)) && WellShaped(DecLive(m, Home(m, g, p)), g)
    ensures forall q :: Live(DecLive(m, Home(m, g, p)), q) == Live(m, q)
  {
    DecCounts(m, g, p);
    var m' := DecLive(m, Home(m, g, p));
    SetLiveShape(m, g, p, Live(m, p), Home(m, g, p), m');
    PardonLifted(m', g, p);
  }

  lemma DecCounts(m: Memory, g: Geometry, p: Ptr)
    requires ShapeBut(m, g, p) && p in g.pos && ReadEntryLive(m, g, p) == Live(m, p) + 1
    ensures var at := Home(m, g, p);
            && Stored(m, at) && ReadEntry(m, at).Entry?
            && DecLive(m, at) == WriteEntry(m, at, ReadEntry(m, at).(live := Live(m, p)))
  {
    DecCountsAt(m, p, Home(m, g, p));
  }

  lemma DecCountsAt(m: Memory, p: Ptr, at: Location)
    requires Stored(m, at) && ReadEntry(m, at).Entry? && ReadEntry(m, at).live == Live(m, p) + 1
    ensures DecLive(m, at) == WriteEntry(m, at, ReadEntry(m, at).(live := Live(m, p)))
  {
  }

  // ---------------------------------------------------------------------------------------------
  // Growing
  // ---------------------------------------------------------------------------------------------

  /** A fresh page is zero-filled. */
  function ZeroIndex(): (page: seq<Entry>)
    ensures |page| == INDEX_CAPACITY && forall i :: 0 <= i < |page| ==> page[i].Nil?
  {
    seq(INDEX_CAPACITY, _ => Nil)
  }

  function ZeroLeaf(): (page: seq<Cell>)
    ensures |page| == LEAF_CAPACITY && forall i :: 0 <= i < |page| ==> !Bound(page[i])
  {
    seq(LEAF_CAPACITY, _ => Cell(0, false, false))
  }

  lemma ZeroPages()
    ensures UsedEntries(ZeroIndex()) == 0 && BoundCells(ZeroLeaf()) == 0
  {
    UsedBounds(ZeroIndex());
    BoundBounds(ZeroLeaf());
  }

  function Place(g: Geometry, x: Position, p: Ptr): Geometry
  {
    Geometry(g.at[x := p], g.pos[p := x])
  }

  /** A fresh index or leaf page is hung into slot i of page p, its entry not counted yet. */
  function LinkPage(m: Memory, p: Ptr, i: nat, height: nat, leafPage: bool): Memory
    requires p in m.index && i < |m.index[p]|
  {
    var linked := m.index[p := m.index[p][i := Entry(m.next, height, 0)]];
    if leafPage then m.(index := linked, leaf := m.leaf[m.next := ZeroLeaf()], next := m.next + 1)
    else m.(index := linked[m.next := ZeroIndex()], next := m.next + 1)
  }

  lemma LinkLive(m: Memory, p: Ptr, i: nat, height: nat, leafPage: bool, q: Ptr)
    requires p in m.index && i < |m.index[p]| && m.index[p][i].Nil? && p != m.next && p !in m.leaf
    requires m.next !in m.leaf && m.next !in m.index
    ensures Live(LinkPage(m, p, i, height, leafPage), q) == Live(m, q) + (if q == p then 1 else 0)
  {
    ZeroPages();
    UsedUpdate(m.index[p], i, Entry(m.next, height, 0));
  }

  ghost predicate Linkable(m: Memory, g: Geometry, p: Ptr, i: nat)
  {
    Shape(m, g) && p in g.pos && g.pos[p].0 >= 2 && p in m.index && i < |m.index[p]| && i < INDEX_CAPACITY && m.index[p][i].Nil?
  }

  lemma MakeLinkable(m: Memory, g: Geometry, p: Ptr, i: nat)
    requires Shape(m, g) && p in m.index && i < INDEX_CAPACITY && i < |m.index[p]| && m.index[p][i].Nil?
    ensures Linkable(m, g, p, i)
  {
    Unfold(m, g);
  }

  /** Two slots lead to the same position only if they are the same slot. */
  lemma ChildUnique(g: Geometry, p: Ptr, i: nat, q: Ptr, j: nat)
    requires p in g.pos && q in g.pos && g.pos[p].0 > 0 && g.pos[q].0 > 0 && i < INDEX_CAPACITY && j < INDEX_CAPACITY
    requires g.pos[p] in g.at && g.at[g.pos[p]] == p && g.pos[q] in g.at && g.at[g.pos[q]] == q
    requires Child(g.pos[p], i) == Child(g.pos[q], j)
    ensures p == q && i == j
  {
    ParentOfChild(g.pos[p], i);
    ParentOfChild(g.pos[q], j);
  }

  /** A fresh page at a free position keeps the geometry. */
  lemma PlaceGeometry(m: Memory, g: Geometry, x: Position, m': Memory, g': Geometry)
    requires GeometryOk(m, g) && x !in g.at && 1 <= x.0 <= StoredHeight(m') && StoredHeight(m) <= StoredHeight(m')
    requires g' == Place(g, x, m.next) && m'.next == m.next + 1
    requires m'.index.Keys == if x.0 == 1 then m.index.Keys else m.index.Keys + {m.next}
    requires m'.leaf.Keys == if x.0 == 1 then m.leaf.Keys + {m.next} else m.leaf.Keys
    ensures GeometryOk(m', g')
  {
    assert m.next !in g.pos;
    assert forall p :: p in m'.index <==> p in m'.index.Keys;
    assert forall p :: p in m'.leaf <==> p in m'.leaf.Keys;
  }

  lemma LinkGeometry(m: Memory, g: Geometry, p: Ptr, i: nat, m': Memory, g': Geometry)
    requires GeometryOk(m, g) && p in m.index && i < |m.index[p]| && i < INDEX_CAPACITY
    requires Child(g.pos[p], i) !in g.at
    requires m' == LinkPage(m, p, i, g.pos[p].0, g.pos[p].0 == 2) && g' == Place(g, Child(g.pos[p], i), m.next)
    ensures GeometryOk(m', g')
  {
    PlaceGeometry(m, g, Child(g.pos[p], i), m', g');
  }

  lemma LinkConnected(m: Memory, g: Geometry, p: Ptr, i: nat, m': Memory, g': Geometry)
    requires Connected(m, g) && p in g.pos && g.pos[p] in g.at && g.pos[p].0 > 0 && i < INDEX_CAPACITY
    requires m'.root == m.root && g' == Place(g, Child(g.pos[p], i), m.next)
    ensures Connected(m', g')
  {
    ParentOfChild(g.pos[p], i);
  }

  lemma LinkSlotNew(m: Memory, g: Geometry, p: Ptr, i: nat, j: nat)
    requires GeometryOk(m, g) && Connected(m, g) && p in m.index && i < INDEX_CAPACITY && j < INDEX_CAPACITY
    requires g.pos[p].0 >= 3 && Child(g.pos[p], i) !in g.at
    ensures Child(Child(g.pos[p], i), j) !in g.at
  {
    ParentOfChild(Child(g.pos[p], i), j);
  }

  /** The slot that now holds the new page. */
  lemma LinkSlotSame(m: Memory, g: Geometry, p: Ptr, i: nat, m': Memory, g': Geometry, q: Ptr, j: nat)
    requires GeometryOk(m, g) && GeometryOk(m', g') && p in m.index && i < |m.index[p]| && i < INDEX_CAPACITY
    requires m.index[p][i].Nil?
    requires m' == LinkPage(m, p, i, g.pos[p].0, g.pos[p].0 == 2) && g' == Place(g, Child(g.pos[p], i), m.next)
    requires q in m.index && j < |m.index[q]| && j < INDEX_CAPACITY && SlotOk(m, g, q, j, m.next)
    requires p == q && i == j
    ensures SlotOk(m', g', q, j, p)
  {
    LinkLive(m, p, i, g.pos[p].0, g.pos[p].0 == 2, m.next);
  }

  lemma LinkSlotOther(m: Memory, g: Geometry, p: Ptr, i: nat, m': Memory, g': Geometry, q: Ptr, j: nat)
    requires GeometryOk(m, g) && GeometryOk(m', g') && p in m.index && i < |m.index[p]| && i < INDEX_CAPACITY
    requires m.index[p][i].Nil?
    requires m' == LinkPage(m, p, i, g.pos[p].0, g.pos[p].0 == 2) && g' == Place(g, Child(g.pos[p], i), m.next)
    requires q in m.index && j < |m.index[q]| && j < INDEX_CAPACITY && SlotOk(m, g, q, j, m.next)
    requires p != q || i != j
    ensures SlotOk(m', g', q, j, p)
  {
    OtherChild(g, p, i, q, j);
    assert m'.index[q][j] == m.index[q][j] && g'.pos[q] == g.pos[q];
    if m.index[q][j].Entry? {
      LinkLive(m, p, i, g.pos[p].0, g.pos[p].0 == 2, m.index[q][j].ptr);
    }
  }

  lemma OtherChild(g: Geometry, p: Ptr, i: nat, q: Ptr, j: nat)
    requires p in g.pos && q in g.pos && g.pos[p].0 > 0 && g.pos[q].0 > 0 && i < INDEX_CAPACITY && j < INDEX_CAPACITY && (p != q || i != j)
    requires g.pos[p] in g.at && g.at[g.pos[p]] == p && g.pos[q] in g.at && g.at[g.pos[q]] == q
    ensures Child(g.pos[p], i) != Child(g.pos[q], j)
  {
    if Child(g.pos[p], i) == Child(g.pos[q], j) {
      ChildUnique(g, p, i, q, j);
    }
  }

  lemma LinkSlotOld(m: Memory, g: Geometry, p: Ptr, i: nat, m': Memory, g': Geometry, q: Ptr, j: nat)
    requires GeometryOk(m, g) && GeometryOk(m', g') && p in m.index && i < |m.index[p]| && i < INDEX_CAPACITY
    requires m.index[p][i].Nil?
    requires m' == LinkPage(m, p, i, g.pos[p].0, g.pos[p].0 == 2) && g' == Place(g, Child(g.pos[p], i), m.next)
    requires q in m.index && j < |m.index[q]| && j < INDEX_CAPACITY && SlotOk(m, g, q, j, m.next)
    ensures SlotOk(m', g', q, j, p)
  {
    if p == q && i == j {
      LinkSlotSame(m, g, p, i, m', g', q, j);
    } else {
      LinkSlotOther(m, g, p, i, m', g', q, j);
    }
  }

  lemma LinkSizes(m: Memory, p: Ptr, i: nat, height: nat, leafPage: bool, m': Memory)
    requires p in m.index && i < |m.index[p]| && m' == LinkPage(m, p, i, height, leafPage)
    requires forall q :: q in m.leaf ==> |m.leaf[q]| == LEAF_CAPACITY
    requires forall q :: q in m.index ==> |m.index[q]| == INDEX_CAPACITY
    ensures forall q :: q in m'.leaf ==> |m'.leaf[q]| == LEAF_CAPACITY
    ensures forall q :: q in m'.index ==> |m'.index[q]| == INDEX_CAPACITY
    ensures m.next in m'.index && p != m.next && !leafPage ==> m'.index[m.next] == ZeroIndex()
    ensures forall q :: q in m'.index && q != m.next ==> q in m.index
  {
  }

  lemma LinkPages(m: Memory, g: Geometry, p: Ptr, i: nat, m': Memory, g': Geometry)
    requires GeometryOk(m, g) && Connected(m, g) && PagesOk(m, g, m.next) && GeometryOk(m', g')
    requires p in m.index && i < INDEX_CAPACITY && m.index[p][i].Nil? && Child(g.pos[p], i) !in g.at
    requires m' == LinkPage(m, p, i, g.pos[p].0, g.pos[p].0 == 2) && g' == Place(g, Child(g.pos[p], i), m.next)
    ensures PagesOk(m', g', p)
  {
    LinkSizes(m, p, i, g.pos[p].0, g.pos[p].0 == 2, m');
    forall q, j | q in m'.index && 0 <= j < INDEX_CAPACITY
      ensures SlotOk(m', g', q, j, p)
    {
      if q == m.next {
        assert g'.pos[q] == Child(g.pos[p], i);
        LinkSlotNew(m, g, p, i, j);
        assert m'.index[q][j].Nil?;
        ParentOfChild(g'.pos[q], j);
      } else {
        LinkSlotOld(m, g, p, i, m', g', q, j);
      }
    }
  }

  lemma LinkRoot(m: Memory, g: Geometry, p: Ptr, i: nat, m': Memory, g': Geometry)
    requires GeometryOk(m, g) && RootOk(m, g, m.next) && p in m.index && i < |m.index[p]| && m.index[p][i].Nil?
    requires m' == LinkPage(m, p, i, g.pos[p].0, g.pos[p].0 == 2) && g' == Place(g, Child(g.pos[p], i), m.next)
    ensures RootOk(m', g', p)
  {
    LinkLive(m, p, i, g.pos[p].0, g.pos[p].0 == 2, if m.root.Nil? then p else m.root.ptr);
  }

  lemma LinkHome(m: Memory, g: Geometry, p: Ptr, i: nat, m': Memory, g': Geometry)
    requires GeometryOk(m, g) && p in m.index && i < |m.index[p]| && m.index[p][i].Nil? && Child(g.pos[p], i) !in g.at
    requires m' == LinkPage(m, p, i, g.pos[p].0, g.pos[p].0 == 2) && g' == Place(g, Child(g.pos[p], i), m.next)
    requires ReadEntryLive(m, g, p) == Live(m, p) && (Home(m, g, p).AtSlot? ==> Home(m, g, p).page != p)
    ensures Home(m', g', p) == Home(m, g, p) && ReadEntryLive(m', g', p) == Live(m', p) - 1
  {
    LinkLive(m, p, i, g.pos[p].0, g.pos[p].0 == 2, p);
  }

  lemma LinkShape(m: Memory, g: Geometry, p: Ptr, i: nat, m': Memory, g': Geometry)
    requires Linkable(m, g, p, i)
    requires m' == LinkPage(m, p, i, g.pos[p].0, g.pos[p].0 == 2) && g' == Place(g, Child(g.pos[p], i), m.next)
    ensures ShapeBut(m', g', p) && Home(m', g', p) == Home(m, g, p)
    ensures ReadEntryLive(m', g', p) == Live(m', p) - 1
  {
    Unfold(m, g);
    assert SlotOk(m, g, p, i, m.next);
    LinkGeometry(m, g, p, i, m', g');
    LinkConnected(m, g, p, i, m', g');
    LinkPages(m, g, p, i, m', g');
    LinkRoot(m, g, p, i, m', g');
    HomeOk(m, g, p, m.next);
    LinkHome(m, g, p, i, m', g');
  }

  /** Growing the tree maps nothing new. */
  lemma LinkMaps(m: Memory, g: Geometry, p: Ptr, i: nat, m': Memory, g': Geometry, x: nat)
    requires GeometryOk(m, g) && p in m.index && i < |m.index[p]| && Child(g.pos[p], i) !in g.at
    requires m' == LinkPage(m, p, i, g.pos[p].0, g.pos[p].0 == 2) && g' == Place(g, Child(g.pos[p], i), m.next)
    ensures Mapped(m', g', x) <==> Mapped(m, g, x)
    ensures Mapped(m, g, x) ==> CellAt(m', g', x) == CellAt(m, g, x)
  {
  }

  /** One more level on top: the old root becomes slot 0 of a fresh index page. */
  function RaiseRoot(m: Memory): Memory
  {
    var h := if m.root.Nil? then 2 else m.root.height + 1;
    var page := if m.root.Nil? then ZeroIndex() else ZeroIndex()[0 := Entry(m.root.ptr, h, m.root.live)];
    m.(root := Entry(m.next, h, if m.root.Nil? then 0 else 1), index := m.index[m.next := page], next := m.next + 1)
  }

  lemma RaiseLive(m: Memory, q: Ptr)
    requires m.next !in m.index && m.next !in m.leaf
    ensures Live(RaiseRoot(m), q) == if q == m.next then (if m.root.Nil? then 0 else 1) else Live(m, q)
  {
    ZeroPages();
    if m.root.Entry? {
      UsedUpdate(ZeroIndex(), 0, Entry(m.root.ptr, m.root.height + 1, m.root.live));
    }
  }

  lemma RaiseGeometry(m: Memory, g: Geometry, m': Memory, g': Geometry)
    requires GeometryOk(m, g) && m' == RaiseRoot(m) && g' == Place(g, (m'.root.height, 0), m.next)
    requires m.root.Nil? || m.root.height >= 1
    ensures GeometryOk(m', g')
  {
    assert (m'.root.height, 0) !in g.at;
    PlaceGeometry(m, g, (m'.root.height, 0), m', g');
  }

  lemma RaiseParent(m: Memory, g: Geometry, x: Position)
    requires GeometryOk(m, g) && Connected(m, g) && RootOk(m, g, m.next) && x in g.at
    ensures 1 <= x.0 <= StoredHeight(m) && (x.0 < StoredHeight(m) ==> Parent(x) in g.at) && (x.0 == StoredHeight(m) ==> Parent(x) == (StoredHeight(m) + 1, 0))
  {
    assert g.at[x] in g.pos;
    assert Connected(m, g) && x.0 < StoredHeight(m) ==> Parent(x) in g.at;
  }

  lemma RaiseConnected(m: Memory, g: Geometry, m': Memory, g': Geometry)
    requires GeometryOk(m, g) && Connected(m, g) && RootOk(m, g, m.next)
    requires m' == RaiseRoot(m) && g' == Place(g, (m'.root.height, 0), m.next)
    ensures Connected(m', g')
  {
    forall x: Position | x in g'.at && x.0 < StoredHeight(m')
      ensures Parent(x) in g'.at
    {
      assert x in g.at;
      RaiseParent(m, g, x);
    }
  }

  lemma RaiseSlotOld(m: Memory, g: Geometry, m': Memory, g': Geometry, q: Ptr, i: nat)
    requires GeometryOk(m, g) && GeometryOk(m', g')
    requires m' == RaiseRoot(m) && g' == Place(g, (m'.root.height, 0), m.next)
    requires q in m.index && i < |m.index[q]| && i < INDEX_CAPACITY && SlotOk(m, g, q, i, m.next)
    ensures q in m'.index && i < |m'.index[q]| && SlotOk(m', g', q, i, m'.next)
  {
    RaiseLive(m, if m.index[q][i].Nil? then m.next else m.index[q][i].ptr);
  }

  lemma RaiseSlotZero(m: Memory, g: Geometry, m': Memory, g': Geometry)
    requires GeometryOk(m, g) && RootOk(m, g, m.next) && m.root.Entry?
    requires m' == RaiseRoot(m) && g' == Place(g, (m'.root.height, 0), m.next)
    ensures m.next in m'.index && 0 < |m'.index[m.next]| && SlotOk(m', g', m.next, 0, m'.next)
  {
    assert Child(g'.pos[m.next], 0) == (m.root.height, 0);
    RaiseLive(m, m.root.ptr);
  }

  lemma RaiseSlotEmpty(m: Memory, g: Geometry, m': Memory, g': Geometry, i: nat)
    requires GeometryOk(m, g) && RootOk(m, g, m.next) && (m.root.Nil? || i > 0)
    requires m' == RaiseRoot(m) && g' == Place(g, (m'.root.height, 0), m.next) && i < INDEX_CAPACITY
    ensures m.next in m'.index && i < |m'.index[m.next]| && SlotOk(m', g', m.next, i, m'.next)
  {
    assert Child(g'.pos[m.next], i) == (m'.root.height - 1, i);
  }

  lemma RaiseSlotNew(m: Memory, g: Geometry, m': Memory, g': Geometry, i: nat)
    requires GeometryOk(m, g) && RootOk(m, g, m.next) && GeometryOk(m', g')
    requires m' == RaiseRoot(m) && g' == Place(g, (m'.root.height, 0), m.next) && i < INDEX_CAPACITY
    ensures m.next in m'.index && i < |m'.index[m.next]| && SlotOk(m', g', m.next, i, m'.next)
  {
    if m.root.Entry? && i == 0 {
      RaiseSlotZero(m, g, m', g');
    } else {
      RaiseSlotEmpty(m, g, m', g', i);
    }
  }

  lemma RaiseRootOk(m: Memory, g: Geometry, m': Memory, g': Geometry)
    requires GeometryOk(m, g) && RootOk(m, g, m.next) && StoredHeight(m) < MAX_HEIGHT
    requires m' == RaiseRoot(m) && g' == Place(g, (m'.root.height, 0), m.next)
    ensures RootOk(m', g', m'.next)
  {
    RaiseLive(m, m.next);
  }

  lemma RaisePages(m: Memory, g: Geometry, m': Memory, g': Geometry)
    requires GeometryOk(m, g) && RootOk(m, g, m.next) && PagesOk(m, g, m.next) && GeometryOk(m', g')
    requires m' == RaiseRoot(m) && g' == Place(g, (m'.root.height, 0), m.next)
    ensures PagesOk(m', g', m'.next)
  {
    forall q, i | q in m'.index && 0 <= i < INDEX_CAPACITY
      ensures SlotOk(m', g', q, i, m'.next)
    {
      if q == m.next {
        RaiseSlotNew(m, g, m', g', i);
      } else {
        assert SlotOk(m, g, q, i, m.next);
        RaiseSlotOld(m, g, m', g', q, i);
      }
    }
  }

  lemma RaiseShape(m: Memory, g: Geometry, m': Memory, g': Geometry)
    requires WellShaped(m, g) && StoredHeight(m) < MAX_HEIGHT
    requires m' == RaiseRoot(m) && g' == Place(g, (m'.root.height, 0), m.next)
    ensures WellShaped(m', g')
  {
    RaiseGeometry(m, g, m', g');
    RaiseConnected(m, g, m', g');
    RaiseRootOk(m, g, m', g');
    RaisePages(m, g, m', g');
  }

  lemma RaiseMaps(m: Memory, g: Geometry, m': Memory, g': Geometry, x: nat)
    requires GeometryOk(m, g) && m' == RaiseRoot(m) && g' == Place(g, (m'.root.height, 0), m.next)
    ensures Mapped(m', g', x) <==> Mapped(m, g, x)
    ensures Mapped(m, g, x) ==> CellAt(m', g', x) == CellAt(m, g, x)
  {
  }

  /** The first leaf page of an empty slice is the root itself. */
  function FirstLeaf(m: Memory): Memory
  {
    m.(root := Entry(m.next, 1, 0), leaf := m.leaf[m.next := ZeroLeaf()], next := m.next + 1)
  }

  lemma FirstLeafEmpty(m: Memory, g: Geometry, m': Memory, g': Geometry)
    requires g.at == map[] && m' == FirstLeaf(m) && g' == Place(g, (1, 0), m.next)
    ensures forall x: nat :: !Mapped(m, g, x) && !Mapped(m', g', x)
  {
    ZeroPages();
  }

  lemma FirstLeafParts(m: Memory, g: Geometry, m': Memory, g': Geometry)
    requires g.at == map[] && m.index == map[] && m.leaf == map[] && m' == FirstLeaf(m) && g' == Place(g, (1, 0), m.next) && GeometryOk(m', g')
    ensures RootOk(m', g', m'.next) && Connected(m', g') && PagesOk(m', g', m'.next)
  {
    ZeroPages();
  }

  lemma FirstLeafShape(m: Memory, g: Geometry, m': Memory, g': Geometry)
    requires WellShaped(m, g) && m.root.Nil? && m' == FirstLeaf(m) && g' == Place(g, (1, 0), m.next)
    ensures WellShaped(m', g')
    ensures forall x: nat :: !Mapped(m, g, x) && !Mapped(m', g', x)
  {
    assert g.at == map[] && g.pos == map[] && m.index == map[] && m.leaf == map[];
    PlaceGeometry(m, g, (1, 0), m', g');
    FirstLeafParts(m, g, m', g');
    FirstLeafEmpty(m, g, m', g');
  }

  // ---------------------------------------------------------------------------------------------
  // Cells
  // ---------------------------------------------------------------------------------------------

  function WriteCell(m: Memory, p: Ptr, j: nat, c: Cell): Memory
    requires p in m.leaf && j < |m.leaf[p]|
  {
    var page: seq<Cell> := m.leaf[p][j := c];
    m.(leaf := m.leaf[p := page])
  }

  lemma CellPages(m: Memory, g: Geometry, p: Ptr, j: nat, c: Cell, m': Memory)
    requires GeometryOk(m, g) && PagesOk(m, g, m.next) && GeometryOk(m', g)
    requires p in m.leaf && j < LEAF_CAPACITY && m' == WriteCell(m, p, j, c)
    ensures PagesOk(m', g, p)
  {
    forall q, i | q in m'.index && 0 <= i < INDEX_CAPACITY
      ensures SlotOk(m', g, q, i, p)
    {
      assert SlotOk(m, g, q, i, m.next);
    }
  }

  lemma CellRest(m: Memory, g: Geometry, p: Ptr, j: nat, c: Cell, m': Memory)
    requires WellShaped(m, g) && p in m.leaf && j < |m.leaf[p]| && m' == WriteCell(m, p, j, c)
    requires forall q :: q != p ==> Live(m', q) == Live(m, q)
    ensures RootOk(m', g, p) && Connected(m', g) && p in g.pos && Home(m', g, p) == Home(m, g, p)
  {
  }

  lemma CellHome(m: Memory, g: Geometry, p: Ptr, j: nat, c: Cell, m': Memory)
    requires WellShaped(m, g) && p in m.leaf && j < |m.leaf[p]| && m' == WriteCell(m, p, j, c) && p in g.pos && Home(m', g, p) == Home(m, g, p)
    ensures ReadEntryLive(m', g, p) == Live(m, p)
  {
    HomeOk(m, g, p, m.next);
  }

  lemma CellShape(m: Memory, g: Geometry, p: Ptr, j: nat, c: Cell, m': Memory)
    requires WellShaped(m, g) && p in m.leaf && j < LEAF_CAPACITY && m' == WriteCell(m, p, j, c)
    ensures ShapeBut(m', g, p) && Home(m', g, p) == Home(m, g, p)
    ensures ReadEntryLive(m', g, p) == Live(m, p)
    ensures Live(m', p) == Live(m, p) - (if Bound(m.leaf[p][j]) then 1 else 0) + (if Bound(c) then 1 else 0)
    ensures forall q :: q != p ==> Live(m', q) == Live(m, q)
  {
    CellLive(m, p, j, c, m');
    CellGeometry(m, g, p, j, c, m');
    CellPages(m, g, p, j, c, m');
    CellRest(m, g, p, j, c, m');
    CellHome(m, g, p, j, c, m');
  }

  lemma CellLive(m: Memory, p: Ptr, j: nat, c: Cell, m': Memory)
    requires p in m.leaf && j < |m.leaf[p]| && m' == WriteCell(m, p, j, c)
    ensures Live(m', p) == Live(m, p) - (if Bound(m.leaf[p][j]) then 1 else 0) + (if Bound(c) then 1 else 0)
    ensures forall q :: q != p ==> Live(m', q) == Live(m, q)
  {
    BoundUpdate(m.leaf[p], j, c);
  }

  lemma CellGeometry(m: Memory, g: Geometry, p: Ptr, j: nat, c: Cell, m': Memory)
    requires GeometryOk(m, g) && p in m.leaf && j < |m.leaf[p]| && m' == WriteCell(m, p, j, c)
    ensures GeometryOk(m', g)
  {
    assert m'.leaf.Keys == m.leaf.Keys;
  }

  /** Writing the cell of offset x changes what x maps to and nothing else. */
  lemma CellMaps(m: Memory, g: Geometry, x: nat, c: Cell, m': Memory, y: nat)
    requires GeometryOk(m, g) && (1, x / LEAF_CAPACITY) in g.at
    requires g.at[(1, x / LEAF_CAPACITY)] in m.leaf && |m.leaf[g.at[(1, x / LEAF_CAPACITY)]]| == LEAF_CAPACITY
    requires m' == WriteCell(m, g.at[(1, x / LEAF_CAPACITY)], x % LEAF_CAPACITY, c)
    ensures Mapped(m', g, x) <==> Bound(c)
    ensures Bound(c) ==> CellAt(m', g, x) == c
    ensures y != x ==> (Mapped(m', g, y) <==> Mapped(m, g, y)) && (Mapped(m, g, y) ==> CellAt(m', g, y) == CellAt(m, g, y))
  {
  }

  /** The map does not see entries. */
  lemma EntryMaps(m: Memory, g: Geometry, m': Memory, x: nat)
    requires m'.leaf == m.leaf
    ensures Mapped(m', g, x) <==> Mapped(m, g, x)
    ensures Mapped(m, g, x) ==> CellAt(m', g, x) == CellAt(m, g, x)
  {
  }

  // ---------------------------------------------------------------------------------------------
  // Shrinking
  // ---------------------------------------------------------------------------------------------

  function FreePage(m: Memory, p: Ptr): Memory
  {
    m.(index := m.index - {p}, leaf := m.leaf - {p})
  }

  function Unplace(g: Geometry, p: Ptr): Geometry
    requires p in g.pos
  {
    Geometry(g.at - {g.pos[p]}, g.pos - {p})
  }

  /** A page with nothing in use has no page below it. */
  lemma EmptyHasNoChild(m: Memory, g: Geometry, p: Ptr, y: Position)
    requires GeometryOk(m, g) && PagesOk(m, g, m.next) && p in g.pos && Live(m, p) == 0 && y in g.at && y.0 > 0
    ensures Parent(y) != g.pos[p]
  {
    if p in m.index {
      UsedBounds(m.index[p]);
      assert SlotOk(m, g, p, y.1 % INDEX_CAPACITY, m.next);
    }
    ChildOfParent(y);
  }

  /** The root with nothing in use is the only page. */
  lemma {:induction false} EmptyRootAlone(m: Memory, g: Geometry, y: Position)
    requires WellShaped(m, g) && m.root.Entry? && m.root.live == 0 && y in g.at
    ensures y == (m.root.height, 0)
    decreases StoredHeight(m) - y.0
  {
    assert g.at[y] in g.pos && y.0 >= 1;
    if y.0 < StoredHeight(m) {
      EmptyRootAlone(m, g, Parent(y));
      EmptyHasNoChild(m, g, m.root.ptr, y);
    }
  }

  /** Taking an empty page other than the root out of its slot. */
  function UnlinkPage(m: Memory, at: Location, p: Ptr): Memory
    requires Stored(m, at)
  {
    FreePage(WriteEntry(m, at, Nil), p)
  }

  lemma UnlinkGeometry(m: Memory, g: Geometry, p: Ptr, m': Memory, g': Geometry)
    requires GeometryOk(m, g) && p in g.pos && Home(m, g, p).AtSlot? && Stored(m, Home(m, g, p))
    requires m' == UnlinkPage(m, Home(m, g, p), p) && g' == Unplace(g, p) && Home(m, g, p).page in g.pos
    ensures GeometryOk(m', g')
  {
    assert m'.index.Keys == m.index.Keys - {p} && m'.leaf.Keys == m.leaf.Keys - {p};
    assert g'.pos.Keys == g.pos.Keys - {p} && g'.at.Keys == g.at.Keys - {g.pos[p]};
  }

  lemma UnlinkConnected(m: Memory, g: Geometry, p: Ptr, m': Memory, g': Geometry)
    requires GeometryOk(m, g) && PagesOk(m, g, m.next) && Connected(m, g) && p in g.pos && Live(m, p) == 0
    requires m'.root == m.root && g' == Unplace(g, p)
    ensures Connected(m', g')
  {
    forall y: Position | y in g'.at && y.0 < StoredHeight(m')
      ensures Parent(y) in g'.at
    {
      assert g.at[y] in g.pos;
      EmptyHasNoChild(m, g, p, y);
    }
  }

  lemma UnlinkLive(m: Memory, at: Location, p: Ptr, m': Memory, q: Ptr)
    requires Stored(m, at) && at.AtSlot? && ReadEntry(m, at).Entry? && m' == UnlinkPage(m, at, p) && at.page != p
    requires at.page !in m.leaf && q != p
    ensures Live(m', q) == Live(m, q) - (if q == at.page then 1 else 0)
  {
    UsedUpdate(m.index[at.page], at.slot, Nil);
  }

  lemma UnlinkSlot(m: Memory, g: Geometry, p: Ptr, at: Location, m': Memory, g': Geometry, q: Ptr, i: nat)
    requires GeometryOk(m, g) && GeometryOk(m', g') && p in g.pos
    requires Stored(m, at) && at.AtSlot? && at.page in g.pos && at.page != p
    requires ReadEntry(m, at).Entry? && ReadEntry(m, at).ptr == p && Child(g.pos[at.page], at.slot) == g.pos[p]
    requires m' == UnlinkPage(m, at, p) && g' == Unplace(g, p) && at.slot < INDEX_CAPACITY
    requires q in m'.index && i < |m'.index[q]| && i < INDEX_CAPACITY && q in m.index && i < |m.index[q]|
    requires SlotOk(m, g, q, i, m.next)
    ensures SlotOk(m', g', q, i, at.page)
  {
    if Child(g.pos[q], i) == g.pos[p] {
      ChildUnique(g, q, i, at.page, at.slot);
    }
    var e := m'.index[q][i];
    if e.Entry? {
      UnlinkLive(m, at, p, m', e.ptr);
    }
  }

  lemma UnlinkPages(m: Memory, g: Geometry, p: Ptr, at: Location, m': Memory, g': Geometry)
    requires GeometryOk(m, g) && PagesOk(m, g, m.next) && GeometryOk(m', g') && p in g.pos
    requires Stored(m, at) && at.AtSlot? && at.page in g.pos && at.page != p && at.slot < INDEX_CAPACITY
    requires ReadEntry(m, at).Entry? && ReadEntry(m, at).ptr == p && Child(g.pos[at.page], at.slot) == g.pos[p]
    requires m' == UnlinkPage(m, at, p) && g' == Unplace(g, p)
    ensures PagesOk(m', g', at.page)
  {
    forall q, i | q in m'.index && 0 <= i < INDEX_CAPACITY
      ensures SlotOk(m', g', q, i, at.page)
    {
      assert q in m.index && SlotOk(m, g, q, i, m.next);
      UnlinkSlot(m, g, p, at, m', g', q, i);
    }
  }

  lemma UnlinkRoot(m: Memory, g: Geometry, p: Ptr, at: Location, m': Memory, g': Geometry)
    requires GeometryOk(m, g) && RootOk(m, g, m.next) && p in g.pos && g.pos[p].0 < StoredHeight(m)
    requires Stored(m, at) && at.AtSlot? && at.page in g.pos && at.page != p && ReadEntry(m, at).Entry?
    requires m' == UnlinkPage(m, at, p) && g' == Unplace(g, p)
    ensures RootOk(m', g', at.page)
  {
    UnlinkLive(m, at, p, m', m.root.ptr);
  }

  lemma UnlinkHome(m: Memory, g: Geometry, p: Ptr, at: Location, m': Memory, g': Geometry)
    requires GeometryOk(m, g) && p in g.pos && Stored(m, at) && at.AtSlot? && at.page in g.pos && at.page != p
    requires ReadEntry(m, at).Entry? && m' == UnlinkPage(m, at, p) && g' == Unplace(g, p)
    requires g.pos[at.page].0 == g.pos[p].0 + 1 && ReadEntryLive(m, g, at.page) == Live(m, at.page)
    requires Home(m, g, at.page).AtSlot? ==> Home(m, g, at.page).page !in {at.page, p}
    ensures at.page in g'.pos && Home(m', g', at.page) == Home(m, g, at.page)
    ensures ReadEntryLive(m', g', at.page) == Live(m', at.page) + 1
  {
    UnlinkLive(m, at, p, m', at.page);
  }

  lemma UnlinkUp(m: Memory, g: Geometry, p: Ptr, at: Location, m': Memory, g': Geometry)
    requires WellShaped(m, g) && p in g.pos && Stored(m, at) && at.AtSlot? && at.page in g.pos && at.page != p
    requires ReadEntry(m, at).Entry? && m' == UnlinkPage(m, at, p) && g' == Unplace(g, p)
    requires g.pos[at.page].0 == g.pos[p].0 + 1
    ensures at.page in g'.pos && Home(m', g', at.page) == Home(m, g, at.page)
    ensures ReadEntryLive(m', g', at.page) == Live(m', at.page) + 1
  {
    HomeOk(m, g, at.page, m.next);
    UnlinkHome(m, g, p, at, m', g');
  }

  lemma UnlinkTree(m: Memory, g: Geometry, p: Ptr, at: Location, m': Memory, g': Geometry)
    requires WellShaped(m, g) && p in g.pos && Live(m, p) == 0 && g.pos[p].0 < StoredHeight(m)
    requires at == Home(m, g, p) && Stored(m, at) && at.AtSlot? && at.page in g.pos && at.page != p && at.slot < INDEX_CAPACITY
    requires ReadEntry(m, at).Entry? && ReadEntry(m, at).ptr == p && Child(g.pos[at.page], at.slot) == g.pos[p]
    requires m' == UnlinkPage(m, at, p) && g' == Unplace(g, p)
    ensures ShapeBut(m', g', at.page)
  {
    UnlinkGeometry(m, g, p, m', g');
    UnlinkConnected(m, g, p, m', g');
    UnlinkPages(m, g, p, at, m', g');
    UnlinkRoot(m, g, p, at, m', g');
  }

  lemma UnlinkShape(m: Memory, g: Geometry, p: Ptr, at: Location, m': Memory, g': Geometry)
    requires WellShaped(m, g) && p in g.pos && Live(m, p) == 0 && g.pos[p].0 < StoredHeight(m)
    requires at == Home(m, g, p) && Stored(m, at) && m' == UnlinkPage(m, at, p) && g' == Unplace(g, p)
    ensures at.AtSlot? && at.page in g'.pos && ShapeBut(m', g', at.page)
    ensures Home(m', g', at.page) == Home(m, g, at.page)
    ensures ReadEntryLive(m', g', at.page) == Live(m', at.page) + 1
  {
    HomeOk(m, g, p, m.next);
    ChildOfParent(g.pos[p]);
    UnlinkTree(m, g, p, at, m', g');
    UnlinkUp(m, g, p, at, m', g');
  }

  /** Freeing an empty page maps nothing less. */
  lemma UnlinkMaps(m: Memory, g: Geometry, p: Ptr, m': Memory, x: nat)
    requires GeometryOk(m, g) && p in g.pos && Live(m, p) == 0
    requires m'.leaf == m.leaf - {p} && (p in m.leaf ==> |m.leaf[p]| == LEAF_CAPACITY)
    ensures Mapped(m', Unplace(g, p), x) <==> Mapped(m, g, x)
    ensures Mapped(m, g, x) ==> CellAt(m', Unplace(g, p), x) == CellAt(m, g, x)
  {
    if p in m.leaf {
      BoundBounds(m.leaf[p]);
    }
  }

  function ClearRoot(m: Memory): Memory { Memory(Nil, map[], map[], m.next) }
  function Nowhere(): Geometry { Geometry(map[], map[]) }

  /** Freeing the root page when nothing is in use leaves no page at all. */
  lemma FreeRootShape(m: Memory, g: Geometry)
    requires WellShaped(m, g) && m.root.Entry? && m.root.live == 0
    ensures FreePage(m.(root := Nil), m.root.ptr) == ClearRoot(m)
    ensures WellShaped(ClearRoot(m), Nowhere())
    ensures forall x: nat :: !Mapped(m, g, x) && !Mapped(ClearRoot(m), Nowhere(), x)
  {
    forall p | p in g.pos
      ensures p == m.root.ptr
    {
      EmptyRootAlone(m, g, g.pos[p]);
    }
    assert m.index - {m.root.ptr} == map[] && m.leaf - {m.root.ptr} == map[];
    forall x: nat
      ensures !Mapped(m, g, x)
    {
      if Mapped(m, g, x) {
        var p := g.at[(1, x / LEAF_CAPACITY)];
        assert p in g.pos;
        BoundBounds(m.leaf[p]);
      }
    }
  }

  /** The only child of the root, in slot 0, becomes the root. */
  function CollapseRoot(m: Memory): Memory
    requires m.root.Entry? && m.root.height > 0
    requires m.root.ptr in m.index && m.index[m.root.ptr] != [] && m.index[m.root.ptr][0].Entry?
  {
    var e := m.index[m.root.ptr][0];
    m.(root := Entry(e.ptr, m.root.height - 1, e.live), index := m.index - {m.root.ptr})
  }

  lemma {:induction false} OnlySlotZero(page: seq<Entry>, i: nat)
    requires UsedEntries(page) == 1 && page != [] && page[0].Entry? && 0 < i < |page|
    ensures page[i].Nil?
  {
    UsedBounds(page[1..]);
    assert page[i] == page[1..][i - 1];
  }

  ghost predicate Collapsible(m: Memory, g: Geometry)
  {
    && WellShaped(m, g) && m.root.Entry? && m.root.height >= 2 && m.root.live == 1
    && m.root.ptr in m.index && m.index[m.root.ptr] != [] && m.index[m.root.ptr][0].Entry?
  }

  /** With one entry in use, in slot 0, only the first position below the root is taken. */
  lemma SecondIsFirst(m: Memory, g: Geometry, x: Position)
    requires Collapsible(m, g) && x in g.at && x.0 > 0 && Parent(x) == (m.root.height, 0)
    ensures x.1 == 0
  {
    ChildOfParent(x);
    assert SlotOk(m, g, m.root.ptr, x.1, m.next);
    if x.1 > 0 {
      OnlySlotZero(m.index[m.root.ptr], x.1);
    }
  }

  /** Nothing but the old root is higher than the new root, and the new root is alone at its height. */
  lemma CollapseTop(m: Memory, g: Geometry, x: Position)
    requires Collapsible(m, g) && x in g.at && x.0 >= m.root.height - 1
    ensures x == (m.root.height, 0) || x == (m.root.height - 1, 0)
  {
    assert g.at[x] in g.pos;
    if x.0 == m.root.height - 1 {
      assert Connected(m, g) && Parent(x) in g.at;
      assert Parent(x) == (m.root.height, 0);
      SecondIsFirst(m, g, x);
    }
  }

  lemma CollapseGeometry(m: Memory, g: Geometry, m': Memory, g': Geometry)
    requires GeometryOk(m, g) && m.root.Entry? && m.root.height >= 2 && m.root.ptr in g.pos
    requires g.pos[m.root.ptr] == (m.root.height, 0) && m'.root.Entry? && m'.root.height == m.root.height - 1
    requires m'.index == m.index - {m.root.ptr} && m'.leaf == m.leaf && m'.next == m.next
    requires g' == Unplace(g, m.root.ptr)
    requires forall y: Position :: y in g.at && y.0 == m.root.height ==> y.1 == 0
    ensures GeometryOk(m', g')
  {
    assert m'.index.Keys == m.index.Keys - {m.root.ptr} && g'.pos.Keys == g.pos.Keys - {m.root.ptr};
    assert g'.at.Keys == g.at.Keys - {(m.root.height, 0)};
    forall p | p in g'.pos
      ensures g'.pos[p].0 <= m.root.height - 1
    {
      assert g.pos[p] in g.at && g.at[g.pos[p]] == p;
    }
  }

  lemma CollapseConnected(m: Memory, g: Geometry, m': Memory, g': Geometry)
    requires Connected(m, g) && m.root.Entry? && m.root.height >= 2 && m.root.ptr in g.pos
    requires g.pos[m.root.ptr] == (m.root.height, 0) && m'.root.Entry? && m'.root.height == m.root.height - 1
    requires g' == Unplace(g, m.root.ptr)
    ensures Connected(m', g')
  {
  }

  lemma CollapsePages(m: Memory, g: Geometry, m': Memory, g': Geometry)
    requires GeometryOk(m, g) && PagesOk(m, g, m.next) && GeometryOk(m', g') && m.root.Entry?
    requires m.root.ptr in g.pos && m'.index == m.index - {m.root.ptr} && m'.leaf == m.leaf && m'.next == m.next
    requires g' == Unplace(g, m.root.ptr)
    requires forall y: Position :: y in g.at && y != g.pos[m.root.ptr] ==> y.0 < g.pos[m.root.ptr].0
    requires m.root.ptr in m.index
    ensures PagesOk(m', g', m.next)
  {
    forall q, i | q in m'.index && 0 <= i < INDEX_CAPACITY
      ensures SlotOk(m', g', q, i, m.next)
    {
      assert q in m.index && SlotOk(m, g, q, i, m.next);
      assert g.pos[q] in g.at;
    }
  }

  /** The new root's entry is right. */
  lemma CollapseEntry(m: Memory, g: Geometry, m': Memory, g': Geometry)
    requires GeometryOk(m, g) && m.root.Entry? && m.root.height >= 2 && m.root.ptr in m.index
    requires m.index[m.root.ptr] != [] && m.index[m.root.ptr][0].Entry? && g.pos[m.root.ptr] == (m.root.height, 0)
    requires SlotOk(m, g, m.root.ptr, 0, m.next)
    requires m' == CollapseRoot(m) && g' == Unplace(g, m.root.ptr)
    ensures (m'.root.height, 0) in g'.at && g'.at[(m'.root.height, 0)] == m'.root.ptr
    ensures m'.root.live == Live(m', m'.root.ptr)
  {
    assert Child(g.pos[m.root.ptr], 0) == (m.root.height - 1, 0);
  }

  lemma CollapseRootOk(m: Memory, g: Geometry, m': Memory, g': Geometry)
    requires Collapsible(m, g) && m' == CollapseRoot(m) && m.root.ptr in g.pos && g' == Unplace(g, m.root.ptr)
    requires (m'.root.height, 0) in g'.at && g'.at[(m'.root.height, 0)] == m'.root.ptr
    requires m'.root.live == Live(m', m'.root.ptr)
    ensures RootOk(m', g', m'.next)
  {
    forall x: Position | x in g'.at && x.0 == StoredHeight(m')
      ensures x.1 == 0
    {
      CollapseTop(m, g, x);
    }
  }

  lemma CollapseShape(m: Memory, g: Geometry, m': Memory, g': Geometry)
    requires Collapsible(m, g) && m' == CollapseRoot(m) && m.root.ptr in g.pos && g' == Unplace(g, m.root.ptr)
    ensures WellShaped(m', g')
  {
    assert SlotOk(m, g, m.root.ptr, 0, m.next);
    CollapseEntry(m, g, m', g');
    CollapseRootOk(m, g, m', g');
    forall y: Position | y in g.at && y != g.pos[m.root.ptr]
      ensures y.0 < g.pos[m.root.ptr].0
    {
      assert g.at[y] in g.pos;
    }
    CollapseGeometry(m, g, m', g');
    CollapseConnected(m, g, m', g');
    CollapsePages(m, g, m', g');
  }

  lemma CollapseMaps(m: Memory, g: Geometry, p: Ptr, m': Memory)
    requires p in g.pos && g.pos[p].0 >= 2 && m'.leaf == m.leaf
    ensures SameMap(m, g, m', Unplace(g, p))
  {
  }

  // ---------------------------------------------------------------------------------------------
  // The map as a whole
  // ---------------------------------------------------------------------------------------------

  /** Both memories map the same offsets to the same cells (folded). */
  ghost predicate SameMap(m: Memory, g: Geometry, m': Memory, g': Geometry)
  {
    forall k: Key, x: nat {:trigger OpenMap(k), Mapped(m', g', x)} {:trigger OpenMap(k), Mapped(m, g, x)} :: OpenMap(k) ==> (Mapped(m', g', x) <==> Mapped(m, g, x)) && (Mapped(m, g, x) ==> CellAt(m', g', x) == CellAt(m, g, x))
  }

  lemma SameContents(m: Memory, g: Geometry, m': Memory, g': Geometry)
    requires SameMap(m, g, m', g')
    ensures Contents(m', g') == Contents(m, g)
  {
    assert OpenMap(Key);
  }

  /** m' maps what m maps, except that x maps to c if c is bound and to nothing otherwise. */
  ghost predicate MapUpdated(m: Memory, g: Geometry, m': Memory, g': Geometry, x: nat, c: Cell)
  {
    && (Mapped(m', g', x) <==> Bound(c)) && (Bound(c) ==> CellAt(m', g', x) == c)
    && forall y: nat :: y != x ==>
         (Mapped(m', g', y) <==> Mapped(m, g, y)) && (Mapped(m, g, y) ==> CellAt(m', g', y) == CellAt(m, g, y))
  }

  lemma UpdatedContents(m: Memory, g: Geometry, m': Memory, g': Geometry, x: nat, c: Cell)
    requires MapUpdated(m, g, m', g', x, c) && x < MAX_PAGES
    ensures Contents(m', g') == if Bound(c) then Contents(m, g)[x := c] else Contents(m, g) - {x}
  {
  }

  // ---------------------------------------------------------------------------------------------
  // Heights
  // ---------------------------------------------------------------------------------------------

  /** The 9-bit slot number at an index level. */
  function IndexSlot(x: nat, level: nat): nat { Prefix(level + 1, x) % INDEX_CAPACITY }

  function RequiredHeight(x: nat): nat
  {
    if x < LEAF_CAPACITY then 1
    else if IndexSlot(x, 2) != 0 then 4
    else if IndexSlot(x, 1) != 0 then 3
    else 2
  }

  /** The required height is the least height whose single root page serves the offset. */
  lemma RequiredServes(x: nat, h: nat)
    requires x < MAX_PAGES && 1 <= h <= MAX_HEIGHT
    ensures h >= RequiredHeight(x) <==> Prefix(h, x) == 0
  {
    assert Prefix(1, x) == x / LEAF_CAPACITY;
    assert Prefix(2, x) == Prefix(1, x) / INDEX_CAPACITY;
    assert Prefix(3, x) == Prefix(2, x) / INDEX_CAPACITY;
    assert Prefix(4, x) == Prefix(3, x) / INDEX_CAPACITY;
  }

  // ---------------------------------------------------------------------------------------------
  // Whole operations on a well-shaped memory
  // ---------------------------------------------------------------------------------------------

  lemma SameMapTrans(m: Memory, g: Geometry, m1: Memory, g1: Geometry, m2: Memory, g2: Geometry)
    requires SameMap(m, g, m1, g1) && SameMap(m1, g1, m2, g2)
    ensures SameMap(m, g, m2, g2)
  {
    assert OpenMap(Key);
    forall x: nat
      ensures (Mapped(m2, g2, x) <==> Mapped(m, g, x)) && (Mapped(m, g, x) ==> CellAt(m2, g2, x) == CellAt(m, g, x))
    {
      assert Mapped(m1, g1, x) <==> Mapped(m, g, x);
    }
  }

  lemma RaiseAll(m: Memory, g: Geometry, m': Memory, g': Geometry)
    requires Shape(m, g) && StoredHeight(m) < MAX_HEIGHT
    requires m' == RaiseRoot(m) && g' == Place(g, (m'.root.height, 0), m.next)
    ensures Shape(m', g') && SameMap(m, g, m', g') && m.next !in g.pos && m'.root.height >= 2
    ensures forall q :: q != m.next ==> Live(m', q) == Live(m, q)
  {
    Unfold(m, g);
    RaiseShape(m, g, m', g');
    forall x: nat
      ensures (Mapped(m', g', x) <==> Mapped(m, g, x)) && (Mapped(m, g, x) ==> CellAt(m', g', x) == CellAt(m, g, x))
    {
      RaiseMaps(m, g, m', g', x);
    }
  }

  /** A fresh page is linked into an empty slot of page p and counted in p's entry, stored at `up`. */
  function Attach(m: Memory, p: Ptr, i: nat, height: nat, up: Location): Memory
    requires p in m.index && i < |m.index[p]| && Stored(m, up)
  {
    var m1 := LinkPage(m, p, i, height, height == 2);
    if Stored(m1, up) then IncLive(m1, up) else m1
  }

  lemma LinkSame(m: Memory, g: Geometry, p: Ptr, i: nat, m': Memory, g': Geometry)
    requires GeometryOk(m, g) && p in m.index && i < |m.index[p]| && Child(g.pos[p], i) !in g.at
    requires m'.leaf == LinkPage(m, p, i, g.pos[p].0, g.pos[p].0 == 2).leaf && g' == Place(g, Child(g.pos[p], i), m.next)
    ensures SameMap(m, g, m', g')
  {
    var m1 := LinkPage(m, p, i, g.pos[p].0, g.pos[p].0 == 2);
    forall x: nat
      ensures (Mapped(m', g', x) <==> Mapped(m, g, x)) && (Mapped(m, g, x) ==> CellAt(m', g', x) == CellAt(m, g, x))
    {
      LinkMaps(m, g, p, i, m1, g', x);
      EntryMaps(m1, g', m', x);
    }
  }

  lemma IncLiveFrame(m: Memory, at: Location)
    requires Stored(m, at)
    ensures var m' := IncLive(m, at);
            m'.leaf == m.leaf && m'.next == m.next && StoredHeight(m') == StoredHeight(m) && m'.index.Keys == m.index.Keys
  {
  }

  lemma AttachLive(m: Memory, p: Ptr, i: nat, height: nat, up: Location, m': Memory)
    requires p in m.index && i < |m.index[p]| && m.index[p][i].Nil? && p != m.next && p !in m.leaf
    requires m.next !in m.leaf && m.next !in m.index
    requires forall q :: Live(m', q) == Live(LinkPage(m, p, i, height, height == 2), q)
    ensures forall q :: Live(m', q) == Live(m, q) + (if q == p then 1 else 0)
  {
    forall q
      ensures Live(m', q) == Live(m, q) + (if q == p then 1 else 0)
    {
      LinkLive(m, p, i, height, height == 2, q);
    }
  }

  lemma AttachShape(m: Memory, g: Geometry, p: Ptr, i: nat, up: Location, m1: Memory, g': Geometry)
    requires Linkable(m, g, p, i) && up == Home(m, g, p)
    requires m1 == LinkPage(m, p, i, g.pos[p].0, g.pos[p].0 == 2) && g' == Place(g, Child(g.pos[p], i), m.next)
    ensures Stored(m1, up) && WellShaped(IncLive(m1, up), g')
    ensures forall q :: Live(IncLive(m1, up), q) == Live(m1, q)
  {
    LinkShape(m, g, p, i, m1, g');
    IncRepairs(m1, g', p);
  }

  lemma AttachAll(m: Memory, g: Geometry, p: Ptr, i: nat, up: Location, m': Memory, g': Geometry)
    requires Linkable(m, g, p, i) && up == Home(m, g, p) && Stored(m, up)
    requires m' == Attach(m, p, i, g.pos[p].0, up) && g' == Place(g, Child(g.pos[p], i), m.next)
    ensures Shape(m', g') && SameMap(m, g, m', g') && StoredHeight(m') == StoredHeight(m)
    ensures forall q :: Live(m', q) == Live(m, q) + (if q == p then 1 else 0)
  {
    var m1 := LinkPage(m, p, i, g.pos[p].0, g.pos[p].0 == 2);
    AttachShape(m, g, p, i, up, m1, g');
    Fold(m', g');
    IncLiveFrame(m1, up);
    AttachSame(m, g, p, i, up, m', g');
  }

  lemma AttachSame(m: Memory, g: Geometry, p: Ptr, i: nat, up: Location, m': Memory, g': Geometry)
    requires Linkable(m, g, p, i) && g' == Place(g, Child(g.pos[p], i), m.next)
    requires m'.leaf == LinkPage(m, p, i, g.pos[p].0, g.pos[p].0 == 2).leaf
    requires forall q :: Live(m', q) == Live(LinkPage(m, p, i, g.pos[p].0, g.pos[p].0 == 2), q)
    ensures SameMap(m, g, m', g')
    ensures forall q :: Live(m', q) == Live(m, q) + (if q == p then 1 else 0)
  {
    Unfold(m, g);
    assert SlotOk(m, g, p, i, m.next);
    LinkSame(m, g, p, i, m', g');
    AttachLive(m, p, i, g.pos[p].0, up, m');
  }

  /** The entry just attached. */
  lemma AttachedEntry(m: Memory, p: Ptr, i: nat, height: nat, up: Location)
    requires p in m.index && i < |m.index[p]| && Stored(m, up) && (up.AtSlot? ==> up.page != p && up.page != m.next) && p != m.next
    ensures var m' := Attach(m, p, i, height, up);
            p in m'.index && i < |m'.index[p]| && m'.index[p][i] == Entry(m.next, height, 0) && StoredHeight(m') == StoredHeight(m)
  {
  }

  /** The page just attached is found through the slot it was attached to. */
  lemma AttachedSlot(m: Memory, g: Geometry, p: Ptr, i: nat, up: Location, m': Memory, g': Geometry)
    requires Linkable(m, g, p, i) && up == Home(m, g, p) && Stored(m, up)
    requires m' == Attach(m, p, i, g.pos[p].0, up) && g' == Place(g, Child(g.pos[p], i), m.next)
    ensures p in g'.pos && g'.pos[p] == g.pos[p] && p in m'.index && i < |m'.index[p]|
    ensures m'.index[p][i] == Entry(m.next, g.pos[p].0, 0) && Home(m', g', m.next) == AtSlot(p, i)
  {
    Unfold(m, g);
    HomeOk(m, g, p, m.next);
    AttachedEntry(m, p, i, g.pos[p].0, up);
    ParentOfChild(g.pos[p], i);
    assert SlotOk(m, g, p, i, m.next);
    AttachedHome(m, g, p, i, m', g');
  }

  lemma AttachedHome(m: Memory, g: Geometry, p: Ptr, i: nat, m': Memory, g': Geometry)
    requires GeometryOk(m, g) && p in g.pos && g.pos[p].0 > 0 && i < INDEX_CAPACITY && Child(g.pos[p], i) !in g.at
    requires StoredHeight(m') == StoredHeight(m) && g' == Place(g, Child(g.pos[p], i), m.next)
    ensures p in g'.pos && g'.pos[p] == g.pos[p] && Home(m', g', m.next) == AtSlot(p, i)
  {
    ParentOfChild(g.pos[p], i);
  }

  /** `page` serves x at height h, and its entry is stored at `up`. */
  ghost predicate OnWay(m: Memory, g: Geometry, x: nat, h: nat, page: Ptr, up: Location)
  {
    && (h, Prefix(h, x)) in g.at && g.at[(h, Prefix(h, x))] == page
    && page in g.pos && g.pos[page] == (h, Prefix(h, x)) && up == Home(m, g, page) && Stored(m, up)
  }

  lemma RootWay(m: Memory, g: Geometry, x: nat)
    requires Shape(m, g) && m.root.Entry? && Prefix(m.root.height, x) == 0
    ensures 1 <= m.root.height <= MAX_HEIGHT && OnWay(m, g, x, m.root.height, m.root.ptr, AtRoot)
  {
    Unfold(m, g);
  }

  lemma Above(m: Memory, g: Geometry, h: nat, x: nat)
    requires Shape(m, g) && 1 <= h <= StoredHeight(m) && (1, Prefix(1, x)) in g.at
    ensures (h, Prefix(h, x)) in g.at
  {
    Unfold(m, g);
    PathAbove(m, g, h, x);
  }

  /** The slot on the way to x: empty exactly if the page below is missing, else it leads there. */
  lemma WayDown(m: Memory, g: Geometry, x: nat, level: nat, page: Ptr, up: Location)
    requires Shape(m, g) && OnWay(m, g, x, level + 2, page, up)
    ensures var i := IndexSlot(x, level);
            && page in m.index && i < |m.index[page]|
            && (m.index[page][i].Nil? <==> (level + 1, Prefix(level + 1, x)) !in g.at)
            && (m.index[page][i].Entry? ==>
                  && m.index[page][i].height == level + 2
                  && OnWay(m, g, x, level + 1, m.index[page][i].ptr, AtSlot(page, i)))
  {
    Unfold(m, g);
    var i := IndexSlot(x, level);
    StepDown(m, g, level + 1, x);
    PrefixStep(level + 1, x);
    if m.index[page][i].Entry? {
      HomeUnique(m, g, m.index[page][i].ptr, page, i, m.next);
    }
  }

  /** A fresh page in that slot is the page below, and nothing else changes for the map. */
  lemma WayGrown(m: Memory, g: Geometry, x: nat, level: nat, page: Ptr, up: Location, m': Memory, g': Geometry)
    requires Shape(m, g) && OnWay(m, g, x, level + 2, page, up) && page in m.index && IndexSlot(x, level) < |m.index[page]|
    requires m.index[page][IndexSlot(x, level)].Nil?
    requires m' == Attach(m, page, IndexSlot(x, level), level + 2, up)
    requires g' == Place(g, (level + 1, Prefix(level + 1, x)), m.next)
    ensures Shape(m', g') && SameMap(m, g, m', g') && StoredHeight(m') == StoredHeight(m)
    ensures OnWay(m', g', x, level + 1, m.next, AtSlot(page, IndexSlot(x, level)))
    ensures forall q :: Live(m', q) == Live(m, q) + (if q == page then 1 else 0)
  {
    MakeLinkable(m, g, page, IndexSlot(x, level));
    PrefixStep(level + 1, x);
    AttachAll(m, g, page, IndexSlot(x, level), up, m', g');
    AttachedSlot(m, g, page, IndexSlot(x, level), up, m', g');
  }

  lemma LeafPage(m: Memory, g: Geometry, x: nat)
    requires Shape(m, g) && (1, Prefix(1, x)) in g.at
    ensures g.at[(1, Prefix(1, x))] in m.leaf && |m.leaf[g.at[(1, Prefix(1, x))]]| == LEAF_CAPACITY
    ensures g.at[(1, Prefix(1, x))] in g.pos && Reaches(m, x) && StoredHeight(m) <= MAX_HEIGHT
    ensures OnWay(m, g, x, 1, g.at[(1, Prefix(1, x))], Home(m, g, g.at[(1, Prefix(1, x))]))
  {
    Unfold(m, g);
    MappedReaches(m, g, x);
    HomeOk(m, g, g.at[(1, Prefix(1, x))], m.next);
  }

  /** The entry on the way holds the exact live count of its page. */
  lemma WayLive(m: Memory, g: Geometry, x: nat, h: nat, page: Ptr, up: Location)
    requires Shape(m, g) && OnWay(m, g, x, h, page, up)
    ensures ReadEntry(m, up).Entry? && ReadEntry(m, up).ptr == page && ReadEntry(m, up).live == Live(m, page)
    ensures up.AtRoot? <==> h == StoredHeight(m)
    ensures 1 <= h <= StoredHeight(m) <= MAX_HEIGHT
    ensures h < StoredHeight(m) ==>
              (h + 1, Prefix(h + 1, x)) in g.at && up == AtSlot(g.at[(h + 1, Prefix(h + 1, x))], IndexSlot(x, h - 1))
  {
    Unfold(m, g);
    HomeOk(m, g, page, m.next);
    PrefixStep(h, x);
  }

  /** Binding x: the cell is written and counted. */
  lemma BindAll(m: Memory, g: Geometry, x: nat, c: Cell, m1: Memory, at: Location)
    requires Shape(m, g) && (1, Prefix(1, x)) in g.at && Bound(c) && !Mapped(m, g, x)
    requires g.at[(1, Prefix(1, x))] in m.leaf && x % LEAF_CAPACITY < |m.leaf[g.at[(1, Prefix(1, x))]]|
    requires m1 == WriteCell(m, g.at[(1, Prefix(1, x))], x % LEAF_CAPACITY, c)
    requires OnWay(m, g, x, 1, g.at[(1, Prefix(1, x))], at)
    ensures Stored(m1, at) && Shape(IncLive(m1, at), g) && MapUpdated(m, g, IncLive(m1, at), g, x, c)
    ensures forall q :: Live(IncLive(m1, at), q) == Live(m, q) + (if q == g.at[(1, Prefix(1, x))] then 1 else 0)
  {
    Unfold(m, g);
    var leaf := g.at[(1, Prefix(1, x))];
    CellShape(m, g, leaf, x % LEAF_CAPACITY, c, m1);
    IncRepairs(m1, g, leaf);
    IncLiveFrame(m1, at);
    CellUpdated(m, g, x, c, m1, IncLive(m1, at));
    Fold(IncLive(m1, at), g);
  }

  lemma CellUpdated(m: Memory, g: Geometry, x: nat, c: Cell, m1: Memory, m2: Memory)
    requires GeometryOk(m, g) && (1, x / LEAF_CAPACITY) in g.at
    requires g.at[(1, x / LEAF_CAPACITY)] in m.leaf && |m.leaf[g.at[(1, x / LEAF_CAPACITY)]]| == LEAF_CAPACITY
    requires m1 == WriteCell(m, g.at[(1, x / LEAF_CAPACITY)], x % LEAF_CAPACITY, c) && m2.leaf == m1.leaf
    ensures MapUpdated(m, g, m2, g, x, c)
  {
    CellMaps(m, g, x, c, m1, x);
    EntryMaps(m1, g, m2, x);
    forall y: nat | y != x
      ensures Mapped(m2, g, y) <==> Mapped(m, g, y)
      ensures Mapped(m, g, y) ==> CellAt(m2, g, y) == CellAt(m, g, y)
    {
      CellMaps(m, g, x, c, m1, y);
      EntryMaps(m1, g, m2, y);
    }
  }

  /** Clearing x: the cell is zeroed and counted out. */
  lemma ClearAll(m: Memory, g: Geometry, x: nat, m1: Memory, at: Location)
    requires Shape(m, g) && Mapped(m, g, x)
    requires m1 == WriteCell(m, g.at[(1, Prefix(1, x))], x % LEAF_CAPACITY, Cell(0, false, false))
    requires OnWay(m, g, x, 1, g.at[(1, Prefix(1, x))], at)
    ensures Stored(m1, at) && Shape(DecLive(m1, at), g)
    ensures MapUpdated(m, g, DecLive(m1, at), g, x, Cell(0, false, false))
    ensures StoredHeight(DecLive(m1, at)) == StoredHeight(m)
    ensures forall q :: q != g.at[(1, Prefix(1, x))] ==> Live(DecLive(m1, at), q) == Live(m, q)
  {
    Unfold(m, g);
    var leaf := g.at[(1, Prefix(1, x))];
    CellShape(m, g, leaf, x % LEAF_CAPACITY, Cell(0, false, false), m1);
    DecRepairs(m1, g, leaf);
    DecLiveFrame(m1, at);
    CellUpdated(m, g, x, Cell(0, false, false), m1, DecLive(m1, at));
    Fold(DecLive(m1, at), g);
  }

  lemma DecLiveFrame(m: Memory, at: Location)
    requires Stored(m, at)
    ensures var m' := DecLive(m, at);
            m'.leaf == m.leaf && m'.next == m.next && StoredHeight(m') == StoredHeight(m) && m'.index.Keys == m.index.Keys
  {
  }

  /** An empty page below the root is taken out of its slot, freed and counted out of its parent. */
  lemma DetachAll(m: Memory, g: Geometry, x: nat, h: nat, page: Ptr, at: Location, up: Location, m1: Memory, g': Geometry)
    requires Shape(m, g) && OnWay(m, g, x, h, page, at) && at.AtSlot? && ReadEntry(m, at).Entry? && ReadEntry(m, at).live == 0
    requires OnWay(m, g, x, h + 1, at.page, up)
    requires m1 == UnlinkPage(m, at, page) && g' == Unplace(g, page)
    ensures Stored(m1, up) && Shape(DecLive(m1, up), g') && SameMap(m, g, DecLive(m1, up), g')
    ensures StoredHeight(DecLive(m1, up)) == StoredHeight(m) && OnWay(DecLive(m1, up), g', x, h + 1, at.page, up)
    ensures forall q :: q in g'.pos && q != at.page ==> Live(DecLive(m1, up), q) == Live(m, q)
  {
    Unfold(m, g);
    HomeOk(m, g, page, m.next);
    UnlinkShape(m, g, page, at, m1, g');
    DecRepairs(m1, g', at.page);
    DecLiveFrame(m1, up);
    Fold(DecLive(m1, up), g');
    forall q | q in g'.pos && q != at.page
      ensures Live(DecLive(m1, up), q) == Live(m, q)
    {
      UnlinkLive(m, at, page, m1, q);
    }
    DetachSame(m, g, page, DecLive(m1, up));
  }

  lemma DetachSame(m: Memory, g: Geometry, p: Ptr, m': Memory)
    requires GeometryOk(m, g) && p in g.pos && Live(m, p) == 0
    requires m'.leaf == m.leaf - {p} && (p in m.leaf ==> |m.leaf[p]| == LEAF_CAPACITY)
    ensures SameMap(m, g, m', Unplace(g, p))
  {
    forall x: nat
      ensures Mapped(m', Unplace(g, p), x) <==> Mapped(m, g, x)
      ensures Mapped(m, g, x) ==> CellAt(m', Unplace(g, p), x) == CellAt(m, g, x)
    {
      UnlinkMaps(m, g, p, m', x);
    }
  }

  lemma FreeRootAll(m: Memory, g: Geometry)
    requires Shape(m, g) && m.root.Entry? && m.root.live == 0
    ensures FreePage(m.(root := Nil), m.root.ptr) == ClearRoot(m)
    ensures Shape(ClearRoot(m), Nowhere()) && SameMap(m, g, ClearRoot(m), Nowhere())
  {
    Unfold(m, g);
    FreeRootShape(m, g);
    Fold(ClearRoot(m), Nowhere());
  }

  lemma CollapseFolded(m: Memory, g: Geometry)
    requires Shape(m, g) && m.root.Entry? && m.root.height >= 2 && m.root.live == 1
    requires m.root.ptr in m.index && m.index[m.root.ptr] != [] && m.index[m.root.ptr][0].Entry?
    ensures m.root.ptr in g.pos && g.pos[m.root.ptr].0 >= 2 && Shape(CollapseRoot(m), Unplace(g, m.root.ptr))
  {
    Unfold(m, g);
    CollapseShape(m, g, CollapseRoot(m), Unplace(g, m.root.ptr));
    Fold(CollapseRoot(m), Unplace(g, m.root.ptr));
  }

  lemma CollapseLive(m: Memory, q: Ptr)
    requires m.root.Entry? && m.root.height > 0 && m.root.ptr in m.index && m.index[m.root.ptr] != [] && m.index[m.root.ptr][0].Entry? && q != m.root.ptr
    ensures Live(CollapseRoot(m), q) == Live(m, q)
  {
  }

  lemma CollapseAll(m: Memory, g: Geometry)
    requires Shape(m, g) && m.root.Entry? && m.root.height >= 2 && m.root.live == 1
    requires m.root.ptr in m.index && m.index[m.root.ptr] != [] && m.index[m.root.ptr][0].Entry?
    ensures m.root.ptr in g.pos && Shape(CollapseRoot(m), Unplace(g, m.root.ptr))
    ensures SameMap(m, g, CollapseRoot(m), Unplace(g, m.root.ptr))
    ensures forall q :: q != m.root.ptr ==> Live(CollapseRoot(m), q) == Live(m, q)
  {
    CollapseFolded(m, g);
    CollapseMaps(m, g, m.root.ptr, CollapseRoot(m));
    forall q | q != m.root.ptr
      ensures Live(CollapseRoot(m), q) == Live(m, q)
    {
      CollapseLive(m, q);
    }
  }

  lemma FirstLeafAll(m: Memory, g: Geometry)
    requires Shape(m, g) && m.root.Nil?
    ensures Shape(FirstLeaf(m), Place(g, (1, 0), m.next)) && SameMap(m, g, FirstLeaf(m), Place(g, (1, 0), m.next))
    ensures (1, 0) !in g.at
  {
    Unfold(m, g);
    FirstLeafShape(m, g, FirstLeaf(m), Place(g, (1, 0), m.next));
    Fold(FirstLeaf(m), Place(g, (1, 0), m.next));
  }

  // ---------------------------------------------------------------------------------------------
  // The way to an offset, and what removing along it keeps
  // ---------------------------------------------------------------------------------------------

  ghost predicate OnWayAt(m: Memory, g: Geometry, x: nat, h: nat, at: Location)
  {
    (h, Prefix(h, x)) in g.at && OnWay(m, g, x, h, g.at[(h, Prefix(h, x))], at)
  }

  /** path[k] stores the entry of the page on the way to x that is k levels below the root, down to above `low`. */
  ghost predicate PathTo(m: Memory, g: Geometry, x: nat, path: seq<Location>, low: nat)
  {
    |path| + low == StoredHeight(m) && forall k :: 0 <= k < |path| ==> OnWayAt(m, g, x, StoredHeight(m) - k, path[k])
  }

  /** Only the height of the root, the sizes of pages and the positions matter for the way. */
  lemma WayKept(m: Memory, g: Geometry, x: nat, h: nat, at: Location, m': Memory)
    requires OnWayAt(m, g, x, h, at) && StoredHeight(m') == StoredHeight(m) && m'.index.Keys == m.index.Keys
    requires forall q :: q in m.index ==> |m'.index[q]| == |m.index[q]|
    ensures OnWayAt(m', g, x, h, at)
  {
  }

  lemma PathKept(m: Memory, g: Geometry, x: nat, path: seq<Location>, low: nat, m': Memory)
    requires PathTo(m, g, x, path, low) && StoredHeight(m') == StoredHeight(m) && m'.index.Keys == m.index.Keys
    requires forall q :: q in m.index ==> |m'.index[q]| == |m.index[q]|
    ensures PathTo(m', g, x, path, low)
  {
    forall k | 0 <= k < |path|
      ensures OnWayAt(m', g, x, StoredHeight(m') - k, path[k])
    {
      WayKept(m, g, x, StoredHeight(m) - k, path[k], m');
    }
  }

  /** Clearing a cell does not change the way. */
  lemma ClearWay(m: Memory, g: Geometry, x: nat, p: Ptr, j: nat, c: Cell, at: Location, path: seq<Location>)
    requires p in m.leaf && j < |m.leaf[p]| && OnWayAt(m, g, x, 1, at) && PathTo(m, g, x, path, 1)
    ensures Stored(WriteCell(m, p, j, c), at)
    ensures var m' := DecLive(WriteCell(m, p, j, c), at); PathTo(m', g, x, path, 1) && OnWayAt(m', g, x, 1, at)
  {
    ClearFrame(m, p, j, c, at);
    PathKept(m, g, x, path, 1, DecLive(WriteCell(m, p, j, c), at));
    WayKept(m, g, x, 1, at, DecLive(WriteCell(m, p, j, c), at));
  }

  lemma DetachWay(m: Memory, g: Geometry, x: nat, h: nat, page: Ptr, h2: nat, at2: Location, m': Memory)
    requires page in g.pos && OnWay(m, g, x, h, page, Home(m, g, page)) && h < h2 && OnWayAt(m, g, x, h2, at2)
    requires at2.AtSlot? ==> at2.page in g.pos && g.pos[at2.page].0 > h
    requires StoredHeight(m') == StoredHeight(m) && m'.index.Keys == m.index.Keys - {page}
    requires forall q :: q in m'.index ==> |m'.index[q]| == |m.index[q]|
    ensures OnWayAt(m', Unplace(g, page), x, h2, at2)
  {
  }

  /** Detaching a page on the way leaves the way above it. */
  lemma DetachPath(m: Memory, g: Geometry, x: nat, path: seq<Location>, h: nat, page: Ptr, m': Memory)
    requires Shape(m, g) && PathTo(m, g, x, path, h) && page in g.pos && OnWay(m, g, x, h, page, Home(m, g, page))
    requires StoredHeight(m') == StoredHeight(m) && m'.index.Keys == m.index.Keys - {page}
    requires forall q :: q in m'.index ==> |m'.index[q]| == |m.index[q]|
    ensures PathTo(m', Unplace(g, page), x, path, h)
  {
    forall k | 0 <= k < |path|
      ensures OnWayAt(m', Unplace(g, page), x, StoredHeight(m') - k, path[k])
    {
      WayUp(m, g, x, StoredHeight(m) - k, path[k]);
      DetachWay(m, g, x, h, page, StoredHeight(m) - k, path[k], m');
    }
  }

  lemma WayUp(m: Memory, g: Geometry, x: nat, h: nat, at: Location)
    requires Shape(m, g) && OnWayAt(m, g, x, h, at)
    ensures at.AtSlot? ==> at.page in g.pos && g.pos[at.page] == Parent((h, Prefix(h, x)))
  {
    Unfold(m, g);
    HomeOk(m, g, g.at[(h, Prefix(h, x))], m.next);
  }

  // ---------------------------------------------------------------------------------------------
  // No page is kept for nothing
  // ---------------------------------------------------------------------------------------------

  /** Pages that a run without allocation failure never leaves empty: all but index pages at prefix 0. */
  predicate Earns(x: Position) { x.0 == 1 || x.1 > 0 }

  /** Every page that has to earn its place has something in use, except possibly page p. */
  ghost predicate TightBut(m: Memory, g: Geometry, p: Ptr)
  {
    forall k: Key, q {:trigger OpenTight(k), q in g.pos} :: OpenTight(k) && q in g.pos && q != p && Earns(g.pos[q]) ==> Live(m, q) > 0
  }

  ghost predicate Tight(m: Memory, g: Geometry)
  {
    forall k: Key, q {:trigger OpenTight(k), q in g.pos} :: OpenTight(k) && q in g.pos && Earns(g.pos[q]) ==> Live(m, q) > 0
  }

  lemma RaiseTight(m: Memory, g: Geometry, m': Memory, g': Geometry)
    requires Tight(m, g) && m' == RaiseRoot(m) && g' == Place(g, (m'.root.height, 0), m.next) && m'.root.height >= 2
    requires forall q :: q != m.next ==> Live(m', q) == Live(m, q)
    ensures Tight(m', g')
  {
    assert OpenTight(Key);
  }

  /** The first slot in use, if there is one at all. */
  lemma {:induction false} SomeUsed(page: seq<Entry>) returns (i: nat)
    requires UsedEntries(page) > 0
    ensures i < |page| && page[i].Entry?
  {
    i := 0;
    if page[0].Nil? {
      i := SomeUsed(page[1..]);
      i := i + 1;
    }
  }

  lemma {:induction false} SomeBound(page: seq<Cell>) returns (i: nat)
    requires BoundCells(page) > 0
    ensures i < |page| && Bound(page[i])
  {
    i := 0;
    if !Bound(page[0]) {
      i := SomeBound(page[1..]);
      i := i + 1;
    }
  }

  /** Below a page that earns its place an offset is mapped. */
  lemma {:induction false} TightMaps(m: Memory, g: Geometry, p: Ptr) returns (x: nat)
    requires WellShaped(m, g) && Tight(m, g) && p in g.pos && Earns(g.pos[p])
    ensures Mapped(m, g, x)
    decreases g.pos[p].0
  {
    assert OpenTight(Key);
    if p in m.leaf {
      var j := SomeBound(m.leaf[p]);
      x := g.pos[p].1 * LEAF_CAPACITY + j;
      assert x / LEAF_CAPACITY == g.pos[p].1 && x % LEAF_CAPACITY == j;
    } else {
      var i := SomeUsed(m.index[p]);
      assert SlotOk(m, g, p, i, m.next);
      x := TightMaps(m, g, m.index[p][i].ptr);
    }
  }

  /** With nothing mapped, a tight tree is at most a chain of index pages at slot 0. */
  lemma TightRoot(m: Memory, g: Geometry)
    requires Shape(m, g) && Tight(m, g) && m.root.Entry? && forall x: nat :: !Mapped(m, g, x)
    ensures m.root.height >= 2 && m.root.ptr in m.index && m.root.live <= 1
    ensures m.root.live == 1 ==> m.index[m.root.ptr] != [] && m.index[m.root.ptr][0].Entry?
  {
    Unfold(m, g);
    assert g.pos[m.root.ptr] == (m.root.height, 0);
    if m.root.height == 1 {
      var x := TightMaps(m, g, m.root.ptr);
    }
    var page := m.index[m.root.ptr];
    forall i | 1 <= i < |page|
      ensures page[i].Nil?
    {
      if page[i].Entry? {
        assert SlotOk(m, g, m.root.ptr, i, m.next);
        var x := TightMaps(m, g, page[i].ptr);
      }
    }
    UsedBounds(page[1..]);
  }

  /** A page hung below `page` moves the excuse for being empty down to it. */
  lemma GrowTight(m: Memory, g: Geometry, page: Ptr, x: Position, m': Memory)
    requires TightBut(m, g, page) && forall q :: Live(m', q) == Live(m, q) + (if q == page then 1 else 0)
    ensures TightBut(m', Place(g, x, m.next), m.next)
  {
    assert OpenTight(Key);
  }

  /** A page with a page below it is not empty. */
  lemma StepTight(m: Memory, g: Geometry, x: nat, level: nat, page: Ptr, up: Location, child: Ptr)
    requires Shape(m, g) && OnWay(m, g, x, level + 2, page, up) && TightBut(m, g, page)
    requires (level + 1, Prefix(level + 1, x)) in g.at
    ensures Tight(m, g) && TightBut(m, g, child)
  {
    assert OpenTight(Key);
    Unfold(m, g);
    StepDown(m, g, level + 1, x);
    UsedBounds(m.index[page]);
  }

  lemma DetachTight(m: Memory, g: Geometry, page: Ptr, up: Ptr, m': Memory)
    requires TightBut(m, g, page) && page in g.pos
    requires forall q :: q in Unplace(g, page).pos && q != up ==> Live(m', q) == Live(m, q)
    ensures TightBut(m', Unplace(g, page), up)
  {
    assert OpenTight(Key);
  }

  /** The steps of a removal see the same memory shape. */
  lemma ClearFrame(m: Memory, p: Ptr, j: nat, c: Cell, at: Location)
    requires p in m.leaf && j < |m.leaf[p]| && Stored(m, at)
    ensures var m' := DecLive(WriteCell(m, p, j, c), at);
            && m'.index.Keys == m.index.Keys && StoredHeight(m') == StoredHeight(m)
            && forall q :: q in m.index ==> |m'.index[q]| == |m.index[q]|
  {
  }

  lemma DetachFrame(m: Memory, at: Location, page: Ptr, up: Location)
    requires Stored(m, at) && at.AtSlot? && at.page != page && Stored(UnlinkPage(m, at, page), up)
    ensures var m' := DecLive(UnlinkPage(m, at, page), up);
            && m'.index.Keys == m.index.Keys - {page} && StoredHeight(m') == StoredHeight(m)
            && forall q :: q in m'.index ==> |m'.index[q]| == |m.index[q]|
  {
  }

  /** Every mapped offset is below the greatest size. */
  lemma ReachBound(h: nat, x: nat)
    requires 1 <= h <= MAX_HEIGHT && Prefix(h, x) == 0
    ensures x < MAX_PAGES
  {
    assert Prefix(2, x) == Prefix(1, x) / INDEX_CAPACITY;
    assert Prefix(3, x) == Prefix(2, x) / INDEX_CAPACITY;
    assert Prefix(4, x) == Prefix(3, x) / INDEX_CAPACITY;
  }

  lemma MappedBelow(m: Memory, g: Geometry, x: nat)
    requires Shape(m, g) && Mapped(m, g, x)
    ensures x < MAX_PAGES
  {
    Unfold(m, g);
    MappedReaches(m, g, x);
    ReachBound(m.root.height, x);
  }

  lemma RemovedSize(a: map<nat, Cell>, x: nat)
    ensures |a - {x}| == |a| - (if x in a then 1 else 0)
  {
    assert (a - {x}).Keys == a.Keys - {x};
  }

  lemma RootServes(m: Memory, g: Geometry, x: nat)
    requires Shape(m, g) && x < MAX_PAGES && RequiredHeight(x) <= StoredHeight(m)
    ensures m.root.Entry? && Prefix(m.root.height, x) == 0
  {
    Unfold(m, g);
    RequiredServes(x, m.root.height);
  }

  lemma RootLeaf(m: Memory, g: Geometry, x: nat)
    requires Shape(m, g) && m.root.Entry? && m.root.height < 2 && x < LEAF_CAPACITY
    ensures (1, Prefix(1, x)) in g.at && g.at[(1, Prefix(1, x))] == m.root.ptr
  {
    Unfold(m, g);
  }

  lemma EmptyRoot(m: Memory, g: Geometry)
    requires Shape(m, g) && m.root.Nil?
    ensures g.at == map[] && g.pos == map[] && m.index == map[] && m.leaf == map[]
  {
    Unfold(m, g);
  }

  /** Below the required height there is no page for x. */
  lemma NoRootNoLeaf(m: Memory, g: Geometry, x: nat)
    requires Shape(m, g) && x < MAX_PAGES
    ensures StoredHeight(m) < RequiredHeight(x) ==> (1, Prefix(1, x)) !in g.at
    ensures StoredHeight(m) >= RequiredHeight(x) ==> m.root.Entry? && Prefix(m.root.height, x) == 0
  {
    Unfold(m, g);
    if (1, Prefix(1, x)) in g.at {
      MappedReaches(m, g, x);
    }
    if m.root.Entry? {
      RequiredServes(x, m.root.height);
    }
  }

  lemma PathShorter(m: Memory, g: Geometry, x: nat, path: seq<Location>, level: nat)
    requires level < |path| && StoredHeight(m) == |path| + 1 && PathTo(m, g, x, path[..level + 1], |path| - level)
    ensures PathTo(m, g, x, path[..level], |path| + 1 - level)
  {
    forall k | 0 <= k < level
      ensures OnWayAt(m, g, x, StoredHeight(m) - k, path[..level][k])
    {
      assert path[..level + 1][k] == path[..level][k];
    }
  }

  ghost predicate TightAt(m: Memory, g: Geometry, x: nat, h: nat)
  {
    (h, Prefix(h, x)) in g.at && TightBut(m, g, g.at[(h, Prefix(h, x))])
  }

  lemma RootIndex(m: Memory, g: Geometry)
    requires Shape(m, g) && m.root.Entry? && m.root.height >= 2
    ensures m.root.ptr in m.index && |m.index[m.root.ptr]| == INDEX_CAPACITY
  {
    Unfold(m, g);
  }

  lemma CollapseTight(m: Memory, g: Geometry, p: Ptr, m': Memory)
    requires Tight(m, g) && p in g.pos && forall q :: q != p ==> Live(m', q) == Live(m, q)
    ensures Tight(m', Unplace(g, p))
  {
    assert OpenTight(Key);
  }

  /** Nothing is wasted once the excused page has something in use. */
  lemma TightAgain(m: Memory, g: Geometry, p: Ptr)
    requires TightBut(m, g, p) && Live(m, p) > 0
    ensures Tight(m, g)
  {
    assert OpenTight(Key);
  }

  lemma TightExcused(m: Memory, g: Geometry, p: Ptr)
    requires Tight(m, g)
    ensures TightBut(m, g, p)
  {
    assert OpenTight(Key);
  }

  lemma CellTight(m: Memory, g: Geometry, p: Ptr, m': Memory)
    requires TightBut(m, g, p) && forall q :: q != p ==> Live(m', q) == Live(m, q)
    ensures TightBut(m', g, p)
  {
    assert OpenTight(Key);
  }
}

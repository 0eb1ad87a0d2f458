/** vmm_radix_tree.c: the radix tree of an address space, its level walker and the search for occupied pages. */
module RadixWalk {
  import opened PageTableMemory

  /** An index entry: valid flag, address of the table below (0: none), and how much is in use below. */
  datatype Entry = Entry(valid: bool, child: nat, count: nat)

  /** A leaf: its flags, and whether it has an owner. */
  datatype Node = Node(flags: Flags, owned: bool)
  datatype Flags = Flags(valid: bool, lazy: bool, others: nat)

  datatype Tree = Tree(root: nat, tables: map<nat, seq<Entry>>, leaves: map<nat, seq<Node>>)

  /** A pointer to an entry or leaf; Wild is what moving a null pointer gives. */
  datatype Ptr = Null | At(table: nat, index: nat) | Wild

  /** The entry below entry p: null if there is no table. */
  function Below(t: Tree, p: Ptr, i: nat): Ptr
  {
    if p.At? && p.table in t.tables && p.index < |t.tables[p.table]| && t.tables[p.table][p.index].child != 0
    then At(t.tables[p.table][p.index].child, i) else Null
  }

  /** A fresh walk from the root: the level-l entry (or, at level 3, leaf) for page x. */
  function Fresh(t: Tree, l: nat, x: nat): Ptr
  {
    if l == 0 then At(t.root, Index(0, x)) else Below(t, Fresh(t, l - 1, x), Index(l, x))
  }

  /** Pages with the same upper bits share the entries above. */
  lemma {:induction false} FreshShared(t: Tree, l: nat, x: nat, y: nat)
    requires l <= 3 && Bits(l + 1, x) == Bits(l + 1, y)
    ensures Fresh(t, l, x) == Fresh(t, l, y)
  {
    if l > 0 {
      FreshShared(t, l - 1, x, y);
    }
  }

  lemma {:induction false} BitsUp(l: nat, k: nat, x: nat, y: nat)
    requires l <= k <= 4 && Bits(k, x) == Bits(k, y)
    ensures Bits(l, x) == Bits(l, y)
    decreases k - l
  {
    if l < k {
      BitsUp(l + 1, k, x, y);
    }
  }

  // ---------------------------------------------------------------------------------------------
  // The level walker
  // ---------------------------------------------------------------------------------------------

  /** Pages per entry of a level. */
  function Gran(level: nat): (n: nat)
    requires level <= 3
    ensures n > 0
  {
    if level == 0 then 0x800_0000 else if level == 1 then 0x4_0000 else if level == 2 then 512 else 1
  }

  /** A walk over [start, end) at one level, in one direction (1 or -1), with cached pointers. */
  datatype Walker = Walker(start: nat, end: nat, level: nat, direction: int, cur: nat, p0: Ptr, p1: Ptr, p2: Ptr, p3: Ptr)

  /** Every cached pointer is what a fresh walk to the current page gives. */
  ghost predicate Cached(t: Tree, w: Walker)
  {
    && w.level <= 3 && w.p0 == Fresh(t, 0, w.cur)
    && (w.level >= 1 ==> w.p1 == Fresh(t, 1, w.cur))
    && (w.level >= 2 ==> w.p2 == Fresh(t, 2, w.cur))
    && (w.level >= 3 ==> w.p3 == Fresh(t, 3, w.cur))
  }

  predicate InRange(w: Walker) { w.start <= w.cur < w.end }

  /** radix_tree_level_walk_init, followed by the check of its result. */
  method Init(t: Tree, start: nat, end: nat, level: nat, direction: int) returns (ok: bool, w: Walker)
    requires level <= 3
    ensures direction != 1 && direction != -1 ==> !ok
    ensures ok ==> Cached(t, w) && InRange(w) && w.start == start && w.end == end && w.level == level && w.direction == direction
    ensures ok && direction == 1 ==> w.cur == start
    ensures direction == 1 ==> (ok <==> start < end)
    ensures ok && direction == -1 ==> w.cur == (end - 1) / Gran(level) * Gran(level)
  {
    var cur := start;
    if direction != 1 && direction != -1 {
      return false, Walker(start, end, level, direction, 0, Null, Null, Null, Null);
    }
    if direction == -1 {
      if end == 0 {
        return false, Walker(start, end, level, direction, 0, Null, Null, Null, Null);
      }
      cur := (end - 1) / Gran(level) * Gran(level);
    }
    var p0 := At(t.root, Index(0, cur));
    var p1 := if level >= 1 then Below(t, p0, Index(1, cur)) else Null;
    var p2 := if level >= 2 && p1 != Null then Below(t, p1, Index(2, cur)) else Null;
    var p3 := if level >= 3 && p2 != Null then Below(t, p2, Index(3, cur)) else Null;
    w := Walker(start, end, level, direction, cur, p0, p1, p2, p3);
    ok := InRange(w);
    FreshSteps(t, cur);
  }

  /** Moving a leaf pointer within its table. */
  function Shift(p: Ptr, d: int): Ptr { if p.At? && p.index + d >= 0 then At(p.table, p.index + d) else Wild }

  /** Where a step goes, if it stays in the range. */
  function Target(w: Walker): int
    requires w.level <= 3
  {
    w.cur + w.direction * Gran(w.level)
  }

  /** A level-3 step that stays in its 2M band. */
  predicate SameBand(w: Walker)
    requires w.level <= 3 && Target(w) >= 0
  {
    && w.level == 3 && w.p2 != Null
    && Index(0, Target(w)) == Index(0, w.cur) && Index(1, Target(w)) == Index(1, w.cur) && Index(2, Target(w)) == Index(2, w.cur)
  }

  predicate StepsWild(w: Walker)
    requires w.level <= 3
  {
    Target(w) >= 0 && SameBand(w) && w.p3 == Null
  }

  /** A pointer depends on the indices up to its level. */
  lemma FreshSteps(t: Tree, x: nat)
    ensures Fresh(t, 0, x) == At(t.root, Index(0, x))
    ensures Fresh(t, 1, x) == Below(t, Fresh(t, 0, x), Index(1, x))
    ensures Fresh(t, 2, x) == Below(t, Fresh(t, 1, x), Index(2, x))
    ensures Fresh(t, 3, x) == Below(t, Fresh(t, 2, x), Index(3, x))
  {
  }

  /**
   radix_tree_level_walk. On success the cached pointers are those of a fresh walk again, with one exception: a
   step within a 2M band at level 3 whose table is missing moves a null pointer.
   */
  method Advance(t: Tree, w: Walker) returns (ok: bool, w': Walker)
    requires Cached(t, w) && InRange(w) && (w.direction == 1 || w.direction == -1)
    ensures !ok ==> w' == w
    ensures ok ==> Target(w) >= 0 && w' == w.(cur := Target(w), p0 := w'.p0, p1 := w'.p1, p2 := w'.p2, p3 := w'.p3) && InRange(w')
    ensures ok && !StepsWild(w) ==> Cached(t, w')
    ensures ok && StepsWild(w) ==> w'.p3 == Wild
    ensures ok <==> w.start <= Target(w) < w.end && (w.level == 0 || Fresh(t, w.level, Target(w)) != Null || SameBand(w))
  {
    var n := w.cur + w.direction * Gran(w.level);
    if n < w.start || n >= w.end {
      return false, w;
    }
    var p0, p1, p2, p3 := w.p0, w.p1, w.p2, w.p3;
    FreshSteps(t, w.cur);
    FreshSteps(t, n);
    var far := Index(0, w.cur) != Index(0, n);
    if w.level == 0 || far {
      p0 := At(t.root, Index(0, n));
    }
    if w.level == 0 {
      return true, w.(cur := n, p0 := p0);
    }
    var mid := Index(1, w.cur) != Index(1, n);
    if w.level == 1 || mid || far {
      p1 := Below(t, p0, Index(1, n));
      if p1 == Null {
        return false, w;
      }
    }
    if w.level == 1 {
      return true, w.(cur := n, p0 := p0, p1 := p1);
    }
    var near := Index(2, w.cur) != Index(2, n);
    if w.level == 2 || near || mid || far {
      p2 := Below(t, p1, Index(2, n));
      if p2 == Null {
        return false, w;
      }
    }
    if w.level == 2 {
      return true, w.(cur := n, p0 := p0, p1 := p1, p2 := p2);
    }
    if !near && !mid && !far && w.p2 != Null {
      p3 := Shift(w.p3, Index(3, n) - Index(3, w.cur));
    } else {
      p3 := Below(t, p2, Index(3, n));
      if p3 == Null {
        return false, w;
      }
    }
    return true, w.(cur := n, p0 := p0, p1 := p1, p2 := p2, p3 := p3);
  }

  /** Three tables on the way to a level-2 entry that has no table below it. */
  function MissingTable(): Tree
  {
    var below := Entry(true, 2, 0);
    Tree(1, map[1 := [below], 2 := [below.(child := 3)], 3 := [Entry(false, 0, 0)]], map[])
  }

  lemma FirstIndices()
    ensures Index(0, 0) == 0 && Index(1, 0) == 0 && Index(2, 0) == 0 && Index(0, 1) == 0 && Index(1, 1) == 0 && Index(2, 1) == 0
  {
  }

  lemma MissingFresh()
    ensures Fresh(MissingTable(), 2, 0) == At(3, 0) && Fresh(MissingTable(), 3, 0) == Null && Fresh(MissingTable(), 3, 1) == Null
  {
    FirstIndices();
    FreshSteps(MissingTable(), 0);
    FreshSteps(MissingTable(), 1);
    assert Fresh(MissingTable(), 1, 0) == At(2, 0) == Fresh(MissingTable(), 1, 1);
  }

  /** Such a step: a walk at level 3 over the first two pages of that tree. */
  method WildStep() returns (t: Tree, w: Walker, ok: bool, w': Walker)
    ensures Cached(t, w) && InRange(w) && Fresh(t, 2, w.cur) != Null && Fresh(t, 3, w.cur) == Null
    ensures ok && w'.cur == w.cur + 1 && w'.p3 == Wild && !Cached(t, w')
  {
    t := MissingTable();
    MissingFresh();
    FirstIndices();
    ok, w := Init(t, 0, 2, 3, 1);
    ok, w' := Advance(t, w);
  }
}

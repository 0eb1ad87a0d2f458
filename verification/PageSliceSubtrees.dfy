/** The pages below a page, and the offsets they serve. */
module PageSliceSubtrees {
  import opened PageSliceMemory

  /** How many offsets a page of height h serves. */
  function Span(h: nat): (n: nat)
    ensures n > 0
  {
    if h == 0 then 1 else if h == 1 then LEAF_CAPACITY else INDEX_CAPACITY * Span(h - 1)
  }

  lemma SpanValues()
    ensures Span(1) == 128 && Span(2) == 0x10000 && Span(3) == 0x2000000 && Span(4) == MAX_PAGES
  {
    assert Span(2) == INDEX_CAPACITY * Span(1);
    assert Span(3) == INDEX_CAPACITY * Span(2);
    assert Span(4) == INDEX_CAPACITY * Span(3);
  }

  lemma PrefixIsQuotient(h: nat, x: nat)
    requires 1 <= h <= MAX_HEIGHT
    ensures Prefix(h, x) == x / Span(h)
  {
    SpanValues();
    assert Prefix(2, x) == Prefix(1, x) / INDEX_CAPACITY;
    assert Prefix(3, x) == Prefix(2, x) / INDEX_CAPACITY;
    assert Prefix(4, x) == Prefix(3, x) / INDEX_CAPACITY;
  }

  /** The offsets of position (h, k) have prefix k. */
  lemma SpanPrefix(h: nat, k: nat, x: nat)
    requires 1 <= h <= MAX_HEIGHT && k * Span(h) <= x < k * Span(h) + Span(h)
    ensures Prefix(h, x) == k
  {
    SpanValues();
    PrefixIsQuotient(h, x);
    assert h == 1 || h == 2 || h == 3 || h == 4;
  }

  /** No page at a position, no mapped offset in its span. */
  lemma SpanUnmapped(m: Memory, g: Geometry, h: nat, k: nat, x: nat)
    requires Shape(m, g) && 1 <= h <= StoredHeight(m) && (h, k) !in g.at
    requires k * Span(h) <= x < k * Span(h) + Span(h)
    ensures !Mapped(m, g, x)
  {
    if Mapped(m, g, x) {
      LeafPage(m, g, x);
      Above(m, g, h, x);
      SpanPrefix(h, k, x);
    }
  }

  /** Position x is y or lies below it. */
  predicate Under(y: Position, x: Position)
    decreases if x.0 < y.0 then y.0 - x.0 else 0
  {
    if x.0 >= y.0 then x == y else Under(y, Parent(x))
  }

  /** The slot of y that leads to x. */
  function Branch(y: Position, x: Position): nat
    requires x.0 < y.0
    decreases y.0 - x.0
  {
    if x.0 == y.0 - 1 then x.1 % INDEX_CAPACITY else Branch(y, Parent(x))
  }

  lemma {:induction false} BranchOk(y: Position, x: Position, i: nat)
    requires x.0 < y.0 && i < INDEX_CAPACITY
    ensures Under(Child(y, i), x) <==> Under(y, x) && Branch(y, x) == i
    ensures Branch(y, x) < INDEX_CAPACITY
    decreases y.0 - x.0
  {
    if x.0 == y.0 - 1 {
      ParentOfChild(y, i);
      ChildOfParent(x);
      assert Under(y, x) <==> Under(y, Parent(x));
    } else {
      BranchOk(y, Parent(x), i);
    }
  }

  /** Whoever is above a page is there. */
  lemma {:induction false} UnderPresent(m: Memory, g: Geometry, y: Position, x: Position)
    requires Shape(m, g) && x in g.at && Under(y, x) && y.0 <= StoredHeight(m)
    ensures y in g.at
    decreases if x.0 < y.0 then y.0 - x.0 else 0
  {
    if x.0 < y.0 {
      Unfold(m, g);
      UnderPresent(m, g, y, Parent(x));
    }
  }

  lemma {:induction false} AllUnderRoot(m: Memory, g: Geometry, x: Position)
    requires Shape(m, g) && m.root.Entry? && x in g.at
    ensures Under((m.root.height, 0), x)
    decreases if x.0 < m.root.height then m.root.height - x.0 else 0
  {
    Unfold(m, g);
    assert g.at[x] in g.pos;
    if x.0 < m.root.height {
      AllUnderRoot(m, g, Parent(x));
    }
  }

  /** The pages at and below a position. */
  ghost function Below(g: Geometry, y: Position): set<Ptr>
  {
    set p | p in g.pos && Under(y, g.pos[p])
  }

  /** The pages below the first n slots of the page at y. */
  ghost function BelowSlots(g: Geometry, y: Position, n: nat): set<Ptr>
  {
    set p | p in g.pos && g.pos[p].0 < y.0 && Under(y, g.pos[p]) && Branch(y, g.pos[p]) < n
  }

  lemma BelowStep(g: Geometry, y: Position, n: nat)
    requires y.0 > 0 && n < INDEX_CAPACITY
    ensures BelowSlots(g, y, n + 1) == BelowSlots(g, y, n) + Below(g, Child(y, n))
    ensures BelowSlots(g, y, n) !! Below(g, Child(y, n))
  {
    forall p | p in g.pos
      ensures p in BelowSlots(g, y, n + 1) <==> p in BelowSlots(g, y, n) || p in Below(g, Child(y, n))
      ensures !(p in BelowSlots(g, y, n) && p in Below(g, Child(y, n)))
    {
      if g.pos[p].0 < y.0 {
        BranchOk(y, g.pos[p], n);
      }
    }
  }

  lemma BelowAll(g: Geometry, y: Position, p: Ptr)
    requires y.0 > 0 && p in g.pos && g.pos[p] == y && forall q :: q in g.pos && g.pos[q] == y ==> q == p
    ensures Below(g, y) == BelowSlots(g, y, INDEX_CAPACITY) + {p} && p !in BelowSlots(g, y, INDEX_CAPACITY)
  {
    forall q | q in g.pos
      ensures q in Below(g, y) <==> q in BelowSlots(g, y, INDEX_CAPACITY) || q == p
    {
      if g.pos[q].0 < y.0 {
        BranchOk(y, g.pos[q], 0);
      }
    }
  }

  lemma BelowNothing(m: Memory, g: Geometry, y: Position)
    requires Shape(m, g) && y !in g.at && y.0 <= StoredHeight(m)
    ensures Below(g, y) == {}
  {
    Unfold(m, g);
    forall p | p in g.pos
      ensures !Under(y, g.pos[p])
    {
      if Under(y, g.pos[p]) {
        UnderPresent(m, g, y, g.pos[p]);
      }
    }
  }

  ghost predicate OpenIntact(k: Key) { true }
  ghost predicate OpenPruned(k: Key) { true }

  /** The pages at and below y are in memory m as they were in m0. */
  ghost predicate Intact(m: Memory, m0: Memory, g: Geometry, y: Position)
  {
    forall k: Key, p {:trigger OpenIntact(k), p in Below(g, y)} :: OpenIntact(k) && p in Below(g, y) ==>
      && (p in m.index <==> p in m0.index) && (p in m0.index ==> m.index[p] == m0.index[p])
      && (p in m.leaf <==> p in m0.leaf) && (p in m0.leaf ==> m.leaf[p] == m0.leaf[p])
  }

  /** Exactly the pages of a set have been freed. */
  ghost predicate Pruned(m: Memory, m': Memory, gone: set<Ptr>)
  {
    forall k: Key {:trigger OpenPruned(k)} :: OpenPruned(k) ==>
      m'.root == m.root && m'.next == m.next && m'.index == m.index - gone && m'.leaf == m.leaf - gone
  }

  /** A page not among those freed is still there. */
  lemma NotPruned(m: Memory, m': Memory, gone: set<Ptr>, p: Ptr)
    requires Pruned(m, m', gone) && p !in gone
    ensures p in m'.index <==> p in m.index
    ensures p in m'.leaf <==> p in m.leaf
    ensures p in m.index ==> m'.index[p] == m.index[p]
  {
    assert OpenPruned(Key);
  }

  lemma IntactChild(m: Memory, m0: Memory, g: Geometry, y: Position, n: nat, m': Memory)
    requires Intact(m, m0, g, y) && y.0 > 0 && n < INDEX_CAPACITY && Pruned(m, m', BelowSlots(g, y, n))
    ensures Intact(m', m0, g, Child(y, n))
  {
    assert OpenIntact(Key) && OpenPruned(Key);
    BelowStep(g, y, n);
    forall p | p in Below(g, Child(y, n))
      ensures p in Below(g, y) && p !in BelowSlots(g, y, n)
    {
      assert p in BelowSlots(g, y, n + 1);
    }
  }

  lemma PrunedTrans(m: Memory, m1: Memory, m2: Memory, a: set<Ptr>, b: set<Ptr>)
    requires Pruned(m, m1, a) && Pruned(m1, m2, b)
    ensures Pruned(m, m2, a + b)
  {
    assert OpenPruned(Key);
    assert m.index - a - b == m.index - (a + b);
    assert m.leaf - a - b == m.leaf - (a + b);
  }

  /** The page at a position and what its slots lead to. */
  lemma PageAt(m: Memory, g: Geometry, y: Position)
    requires Shape(m, g) && y in g.at
    ensures g.at[y] in g.pos && g.pos[g.at[y]] == y && 1 <= y.0 <= StoredHeight(m) <= MAX_HEIGHT
    ensures forall q :: q in g.pos && g.pos[q] == y ==> q == g.at[y]
    ensures y.0 == 1 ==> g.at[y] in m.leaf && |m.leaf[g.at[y]]| == LEAF_CAPACITY && g.at[y] !in m.index
    ensures y.0 >= 2 ==> g.at[y] in m.index && |m.index[g.at[y]]| == INDEX_CAPACITY && g.at[y] !in m.leaf
    ensures Under(y, y)
  {
    Unfold(m, g);
  }

  lemma SlotAt(m: Memory, g: Geometry, y: Position, i: nat)
    requires Shape(m, g) && y in g.at && y.0 >= 2 && i < INDEX_CAPACITY
    ensures g.at[y] in m.index && |m.index[g.at[y]]| == INDEX_CAPACITY
    ensures m.index[g.at[y]][i].Nil? <==> Child(y, i) !in g.at
    ensures m.index[g.at[y]][i].Entry? ==> m.index[g.at[y]][i].ptr == g.at[Child(y, i)] && m.index[g.at[y]][i].height == y.0
  {
    Unfold(m, g);
    assert g.pos[g.at[y]] == y;
    assert SlotOk(m, g, g.at[y], i, m.next);
  }

  lemma ChildSpan(y: Position, i: nat)
    requires y.0 >= 2
    ensures Child(y, i).1 * Span(y.0 - 1) == y.1 * Span(y.0) + i * Span(y.0 - 1)
  {
    calc {
      Child(y, i).1 * Span(y.0 - 1);
      (y.1 * INDEX_CAPACITY + i) * Span(y.0 - 1);
      y.1 * INDEX_CAPACITY * Span(y.0 - 1) + i * Span(y.0 - 1);
      y.1 * (INDEX_CAPACITY * Span(y.0 - 1)) + i * Span(y.0 - 1);
    }
  }

  lemma NotBelow(g: Geometry, y: Position, n: nat, p: Ptr)
    requires y.0 > 0 && n < INDEX_CAPACITY && p in g.pos && g.pos[p] == y
    ensures p !in Below(g, Child(y, n)) && p !in BelowSlots(g, y, n + 1)
  {
  }

  lemma LeafBelow(m: Memory, g: Geometry, y: Position)
    requires Shape(m, g) && y in g.at && y.0 == 1
    ensures Below(g, y) == {g.at[y]} && g.at[y] in m.leaf && |m.leaf[g.at[y]]| == LEAF_CAPACITY && g.at[y] !in m.index
  {
    PageAt(m, g, y);
    LeafAlone(m, g, y);
  }

  /** Nothing is below a leaf page. */
  lemma LeafAlone(m: Memory, g: Geometry, y: Position)
    requires Shape(m, g) && y in g.at && y.0 == 1
    ensures Below(g, y) == {g.at[y]}
  {
    Unfold(m, g);
    assert forall p :: p in Below(g, y) ==> g.pos[p] == y;
  }

  lemma RootAt(m: Memory, g: Geometry)
    requires Shape(m, g) && m.root.Entry?
    ensures 1 <= m.root.height <= MAX_HEIGHT && (m.root.height, 0) in g.at && g.at[(m.root.height, 0)] == m.root.ptr
    ensures Span(m.root.height) <= MAX_PAGES && Intact(m, m, g, (m.root.height, 0))
  {
    RootPlaced(m, g);
    SpanValues();
  }

  lemma RootPlaced(m: Memory, g: Geometry)
    requires Shape(m, g) && m.root.Entry?
    ensures 1 <= m.root.height <= MAX_HEIGHT && (m.root.height, 0) in g.at && g.at[(m.root.height, 0)] == m.root.ptr
  {
    Unfold(m, g);
  }

  /** Freeing everything below the root leaves no page. */
  lemma AllBelowRoot(m: Memory, g: Geometry, m': Memory)
    requires Shape(m, g) && m.root.Entry? && Pruned(m, m', Below(g, (m.root.height, 0)))
    ensures m'.index == map[] && m'.leaf == map[]
  {
    Unfold(m, g);
    assert OpenPruned(Key);
    forall p | p in g.pos
      ensures p in Below(g, (m.root.height, 0))
    {
      AllUnderRoot(m, g, g.pos[p]);
    }
  }
}

/** page_slice_copy.c: cloning a slice by one iterative walk over its leaf pages. */
module PageSliceClone {
  import opened PageSliceMemory
  import opened PageSliceSubtrees
  import opened PageSlices

  /** Data pages by address; addresses from `next` on are free. */
  datatype Pages<T> = Pages(content: map<nat, T>, next: nat)

  ghost predicate PagesFresh<T>(d: Pages<T>)
  {
    d.next > 0 && forall a :: a in d.content ==> a < d.next
  }

  /** Every page the map names has a content. */
  ghost predicate Backed<T>(view: map<nat, Cell>, d: Pages<T>)
  {
    forall x :: x in view ==> view[x].kva in d.content
  }

  /** dst holds copies, in fresh pages and not pinned, of the pages src maps below `front`. */
  ghost predicate Copied<T>(src: map<nat, Cell>, d0: Pages<T>, dst: map<nat, Cell>, d: Pages<T>, front: nat)
  {
    && (forall x :: x in dst <==> x in src && x < front)
    && (forall x :: x in dst ==> CopyOf(src[x], d0, dst[x], d))
    && (forall x, y :: x in dst && y in dst && x < y ==> dst[x].kva < dst[y].kva)
    && d0.next <= d.next
    && (forall a :: a in d0.content ==> a in d.content && d.content[a] == d0.content[a])
  }

  ghost predicate CopyOf<T>(c: Cell, d0: Pages<T>, c': Cell, d: Pages<T>)
  {
    && Bound(c') && !c'.pin && d0.next <= c'.kva < d.next && c'.kva in d.content
    && c.kva in d0.content && d.content[c'.kva] == d0.content[c.kva]
  }

  /** Nothing mapped between the fronts: the copy reaches further. */
  lemma CopiedSkip<T>(src: map<nat, Cell>, d0: Pages<T>, dst: map<nat, Cell>, d: Pages<T>, front: nat, front': nat)
    requires Copied(src, d0, dst, d, front) && front <= front' && forall x :: front <= x < front' ==> x !in src
    ensures Copied(src, d0, dst, d, front')
  {
  }

  /** One more page copied to a fresh address. */
  lemma CopiedOne<T>(src: map<nat, Cell>, d0: Pages<T>, dst: map<nat, Cell>, d: Pages<T>, x: nat, d': Pages<T>)
    requires Copied(src, d0, dst, d, x) && PagesFresh(d) && x in src && src[x].kva in d0.content
    requires d' == Pages(d.content[d.next := d0.content[src[x].kva]], d.next + 1)
    ensures Copied(src, d0, dst[x := Cell(d.next, true, false)], d', x + 1)
  {
  }

  lemma CopiedFree<T>(src: map<nat, Cell>, d0: Pages<T>, dst: map<nat, Cell>, d: Pages<T>, x: nat)
    requires Copied(src, d0, dst, d, x) && PagesFresh(d)
    ensures x !in dst && Kept(d0, d)
  {
  }

  /** No page of the source has changed. */
  ghost predicate Kept<T>(d0: Pages<T>, d: Pages<T>)
  {
    forall a :: a in d0.content ==> a in d.content && d.content[a] == d0.content[a]
  }

  /** The leaf pages visited so far: all below the front, each once, in ascending order of their first offset. */
  ghost predicate Visited(g: Geometry, visits: seq<nat>, front: nat)
  {
    && (forall i, j :: 0 <= i < j < |visits| ==> visits[i] < visits[j])
    && (forall b: nat :: b in visits <==> b % LEAF_CAPACITY == 0 && (1, b / LEAF_CAPACITY) in g.at && b < front)
  }

  lemma VisitedSkip(g: Geometry, visits: seq<nat>, front: nat, front': nat)
    requires Visited(g, visits, front) && front <= front'
    requires forall b: nat :: front <= b < front' && b % LEAF_CAPACITY == 0 ==> (1, b / LEAF_CAPACITY) !in g.at
    ensures Visited(g, visits, front')
  {
  }

  lemma VisitedOne(g: Geometry, visits: seq<nat>, front: nat)
    requires Visited(g, visits, front) && front % LEAF_CAPACITY == 0 && (1, front / LEAF_CAPACITY) in g.at
    ensures Visited(g, visits + [front], front + LEAF_CAPACITY)
  {
    forall i | 0 <= i < |visits|
      ensures visits[i] < front
    {
      assert visits[i] in visits;
    }
    forall b: nat
      ensures b in visits + [front] <==> b % LEAF_CAPACITY == 0 && (1, b / LEAF_CAPACITY) in g.at && b < front + LEAF_CAPACITY
    {
      assert b in visits + [front] <==> b in visits || b == front;
    }
  }

  // ---------------------------------------------------------------------------------------------
  // Copying a leaf page
  // ---------------------------------------------------------------------------------------------

  /** ps_clone_copy_leaf_entry. */
  method CopyEntry<T>(dst: Slice, x: nat, c: Cell, data: Pages<T>, ghost src: map<nat, Cell>, ghost d0: Pages<T>)
    returns (err: Error, data': Pages<T>)
    requires dst.Valid() && PagesFresh(data) && Copied(src, d0, dst.view, data, x) && Kept(d0, data)
    requires (x in src <==> Bound(c)) && (x in src ==> src[x] == c && x < PageCount(dst.size))
    requires x in src ==> c.kva in d0.content
    modifies dst
    ensures dst.Valid() && dst.size == old(dst.size) && PagesFresh(data') && Kept(d0, data')
    ensures err in {Success, NoMem}
    ensures err == Success ==> Copied(src, d0, dst.view, data', x + 1)
  {
    err, data' := Success, data;
    if !Bound(c) {
      CopiedSkip(src, d0, dst.view, data, x, x + 1);
      return;
    }
    var ok: bool := *;
    if !ok {
      return NoMem, data;
    }
    CopiedFree(src, d0, dst.view, data, x);
    var page := data.next;
    data' := Pages(data.content[page := data.content[c.kva]], page + 1);
    CopiedOne(src, d0, dst.view, data, x, data');
    err := dst.Insert(x, page, false);
    if err != Success {
      data' := data'.(content := data'.content - {page});
    }
  }

  /** The cells of the page at leaf number k, as the source's map sees them. */
  ghost predicate CellsOf(cells: seq<Cell>, src: map<nat, Cell>, base: nat)
  {
    forall i :: 0 <= i < |cells| ==>
      (base + i in src <==> Bound(cells[i])) && (base + i in src ==> src[base + i] == cells[i])
  }

  /** ps_clone_copy_leaf_page. */
  method CopyLeaf<T>(dst: Slice, base: nat, cells: seq<Cell>, data: Pages<T>, ghost src: map<nat, Cell>, ghost d0: Pages<T>)
    returns (err: Error, data': Pages<T>)
    requires dst.Valid() && PagesFresh(data) && Copied(src, d0, dst.view, data, base) && Kept(d0, data) && |cells| == LEAF_CAPACITY
    requires CellsOf(cells, src, base) && Backed(src, d0) && forall x :: x in src ==> x < PageCount(dst.size)
    modifies dst
    ensures dst.Valid() && dst.size == old(dst.size) && PagesFresh(data') && Kept(d0, data')
    ensures err in {Success, NoMem}
    ensures err == Success ==> Copied(src, d0, dst.view, data', base + LEAF_CAPACITY)
  {
    err, data' := Success, data;
    var i := 0;
    while i < LEAF_CAPACITY
      invariant 0 <= i <= LEAF_CAPACITY && dst.Valid() && dst.size == old(dst.size) && PagesFresh(data') && Kept(d0, data')
      invariant Copied(src, d0, dst.view, data', base + i)
    {
      err, data' := CopyEntry(dst, base + i, cells[i], data', src, d0);
      if err != Success {
        return;
      }
      i := i + 1;
    }
    err := Success;
  }

  // ---------------------------------------------------------------------------------------------
  // The walk
  // ---------------------------------------------------------------------------------------------

  ghost predicate OpenWalk(k: Key) { true }

  /** Three levels of slot, page and first offset; `number` gives the position of each page. */
  datatype Walk = Walk(cur: nat, slot: seq<nat>, index: seq<Ptr>, base: seq<nat>, ghost number: seq<nat>)
  {
    ghost predicate Shaped(height: nat)
    {
      && 2 <= height <= MAX_HEIGHT && cur < height - 1
      && |slot| == 3 && |index| == 3 && |base| == 3 && |number| == 3 && slot[cur] <= INDEX_CAPACITY
      && number[0] == 0
    }

    /** The pages on the stack are where their slots say. */
    ghost predicate Ok(g: Geometry, height: nat)
      requires Shaped(height)
    {
      forall k: Key {:trigger OpenWalk(k)} :: OpenWalk(k) ==>
      && (forall j :: 0 <= j < cur ==> slot[j] < INDEX_CAPACITY && number[j + 1] == Child((height - j, number[j]), slot[j]).1)
      && (forall j :: 0 <= j <= cur ==>
            && (height - j, number[j]) in g.at && index[j] == g.at[(height - j, number[j])]
            && base[j] == number[j] * Span(height - j))
    }

    /** Every offset below the front has been dealt with. */
    ghost function Front(height: nat): nat
      requires Shaped(height)
    {
      base[cur] + slot[cur] * Span(height - cur - 1)
    }

    /** The position of the current page. */
    ghost function Here(height: nat): Position
      requires Shaped(height)
    {
      (height - cur, number[cur])
    }

    /** Steps left at one front: first up, then down. */
    function Rank(): nat
      requires cur < 3 && cur < |slot|
    {
      if slot[cur] >= INDEX_CAPACITY then 5 + cur else 3 - cur
    }
  }

  lemma WalkStart(m: Memory, g: Geometry, w: Walk)
    requires Shape(m, g) && m.root.Entry? && m.root.height >= 2
    requires w == Walk(0, [0, 0, 0], [m.root.ptr, 0, 0], [0, 0, 0], [0, 0, 0])
    ensures m.root.height <= MAX_HEIGHT && w.Shaped(m.root.height) && w.Ok(g, m.root.height) && w.Front(m.root.height) == 0
  {
    RootPlaced(m, g);
  }

  lemma WalkHere(g: Geometry, height: nat, w: Walk)
    requires w.Shaped(height) && w.Ok(g, height)
    ensures w.Here(height) in g.at && w.index[w.cur] == g.at[w.Here(height)] && w.base[w.cur] == w.number[w.cur] * Span(height - w.cur)
  {
    assert OpenWalk(Key);
  }

  /** The pages on the stack serve only offsets that the root serves. */
  lemma {:induction false} WalkBound(g: Geometry, height: nat, w: Walk, j: nat)
    requires w.Shaped(height) && w.Ok(g, height) && j <= w.cur
    ensures w.base[j] + Span(height - j) <= Span(height)
  {
    assert OpenWalk(Key);
    if j > 0 {
      WalkBound(g, height, w, j - 1);
      assert w.slot[j - 1] < INDEX_CAPACITY && w.number[j - 1 + 1] == Child((height - (j - 1), w.number[j - 1]), w.slot[j - 1]).1;
      ChildSpan((height - j + 1, w.number[j - 1]), w.slot[j - 1]);
      SlotBound(w.slot[j - 1], Span(height - j));
    }
  }

  lemma SlotBound(i: nat, span: nat)
    requires i <= INDEX_CAPACITY
    ensures i * span <= INDEX_CAPACITY * span
    ensures i < INDEX_CAPACITY ==> i * span + span <= INDEX_CAPACITY * span
  {
    var rest: nat := INDEX_CAPACITY - i;
    assert INDEX_CAPACITY * span == i * span + rest * span;
    if rest > 0 {
      assert rest * span == span + (rest - 1) * span;
    }
  }

  lemma FrontBound(g: Geometry, height: nat, w: Walk)
    requires w.Shaped(height) && w.Ok(g, height)
    ensures w.Front(height) <= Span(height)
    ensures w.cur == 0 && w.slot[0] == INDEX_CAPACITY ==> w.Front(height) == Span(height)
  {
    WalkBound(g, height, w, w.cur);
    SlotBound(w.slot[w.cur], Span(height - w.cur - 1));
    FrontEnd(g, height, w);
  }

  lemma FrontEnd(g: Geometry, height: nat, w: Walk)
    requires w.Shaped(height) && w.Ok(g, height)
    ensures w.cur == 0 && w.slot[0] == INDEX_CAPACITY ==> w.Front(height) == Span(height)
  {
    RootBase(g, height, w);
  }

  lemma RootBase(g: Geometry, height: nat, w: Walk)
    requires w.Shaped(height) && w.Ok(g, height)
    ensures w.base[0] == 0
  {
    assert OpenWalk(Key);
  }

  lemma WalkNext(g: Geometry, height: nat, w: Walk, w': Walk)
    requires w.Shaped(height) && w.Ok(g, height) && w.slot[w.cur] < INDEX_CAPACITY
    requires w' == w.(slot := w.slot[w.cur := w.slot[w.cur] + 1])
    ensures w'.Shaped(height) && w'.Ok(g, height) && w'.Front(height) == w.Front(height) + Span(height - w.cur - 1)
  {
    assert OpenWalk(Key);
  }

  /** The first offset of a page below the root, from the page above. */
  lemma WalkBase(g: Geometry, height: nat, w: Walk)
    requires w.Shaped(height) && w.Ok(g, height) && w.cur > 0
    ensures w.slot[w.cur - 1] < INDEX_CAPACITY
    ensures w.base[w.cur] == w.base[w.cur - 1] + w.slot[w.cur - 1] * Span(height - w.cur)
  {
    assert OpenWalk(Key);
    var j: nat := w.cur - 1;
    assert w.number[j + 1] == Child((height - j, w.number[j]), w.slot[j]).1;
    ChildSpan((height - j, w.number[j]), w.slot[j]);
  }

  lemma WalkUpOk(g: Geometry, height: nat, w: Walk, w': Walk)
    requires w.Shaped(height) && w.Ok(g, height) && w.cur > 0 && w.slot[w.cur - 1] < INDEX_CAPACITY
    requires w' == w.(cur := w.cur - 1, slot := w.slot[w.cur := 0][w.cur - 1 := w.slot[w.cur - 1] + 1])
    ensures w'.Shaped(height) && w'.Ok(g, height)
  {
    assert OpenWalk(Key);
  }

  lemma UpFront(base: nat, i: nat, span: nat, below: nat)
    requires span == INDEX_CAPACITY * below
    ensures base + (i + 1) * span == base + i * span + INDEX_CAPACITY * below
  {
  }

  lemma WalkUp(g: Geometry, height: nat, w: Walk, w': Walk)
    requires w.Shaped(height) && w.Ok(g, height) && w.slot[w.cur] == INDEX_CAPACITY && w.cur > 0
    requires w' == w.(cur := w.cur - 1, slot := w.slot[w.cur := 0][w.cur - 1 := w.slot[w.cur - 1] + 1])
    ensures w'.Shaped(height) && w'.Ok(g, height) && w'.Front(height) == w.Front(height)
  {
    WalkBase(g, height, w);
    WalkUpOk(g, height, w, w');
    UpFront(w.base[w.cur - 1], w.slot[w.cur - 1], Span(height - w.cur), Span(height - w.cur - 1));
  }

  lemma WalkDown(g: Geometry, height: nat, w: Walk, child: Ptr, w': Walk)
    requires w.Shaped(height) && w.Ok(g, height) && w.slot[w.cur] < INDEX_CAPACITY && w.cur + 1 < height - 1
    requires Child(w.Here(height), w.slot[w.cur]) in g.at && child == g.at[Child(w.Here(height), w.slot[w.cur])]
    requires w' == Walk(w.cur + 1, w.slot[w.cur + 1 := 0], w.index[w.cur + 1 := child],
                        w.base[w.cur + 1 := w.base[w.cur] + w.slot[w.cur] * Span(height - w.cur - 1)],
                        w.number[w.cur + 1 := Child(w.Here(height), w.slot[w.cur]).1])
    ensures w'.Shaped(height) && w'.Ok(g, height) && w'.Front(height) == w.Front(height)
  {
    WalkHere(g, height, w);
    ChildSpan(w.Here(height), w.slot[w.cur]);
    WalkDownOk(g, height, w, w');
  }

  lemma WalkDownOk(g: Geometry, height: nat, w: Walk, w': Walk)
    requires w.Shaped(height) && w.Ok(g, height) && w.slot[w.cur] < INDEX_CAPACITY && w'.Shaped(height) && w'.cur == w.cur + 1
    requires w' == Walk(w.cur + 1, w.slot[w.cur + 1 := 0], w.index[w.cur + 1 := w'.index[w.cur + 1]],
                        w.base[w.cur + 1 := w'.base[w.cur + 1]], w.number[w.cur + 1 := Child(w.Here(height), w.slot[w.cur]).1])
    requires w'.Here(height) in g.at && w'.index[w'.cur] == g.at[w'.Here(height)] && w'.base[w'.cur] == w'.number[w'.cur] * Span(height - w'.cur)
    ensures w'.Ok(g, height)
  {
    assert OpenWalk(Key);
  }

  /** What holds between the steps: below the front everything is copied, and every leaf page visited. */
  ghost predicate Progress<T>(g: Geometry, view: map<nat, Cell>, d0: Pages<T>, dst: map<nat, Cell>, d: Pages<T>, visits: seq<nat>, front: nat)
  {
    forall k: Key {:trigger OpenProgress(k)} :: OpenProgress(k) ==>
      Copied(view, d0, dst, d, front) && Visited(g, visits, front) && PagesFresh(d)
  }

  ghost predicate OpenProgress(k: Key) { true }

  /** An empty slot serves nothing. */
  lemma EmptySlot<T>(m: Memory, g: Geometry, size: nat, mapped: nat, view: map<nat, Cell>, y: Position, i: nat,
                     d0: Pages<T>, dst: map<nat, Cell>, d: Pages<T>, visits: seq<nat>, front: nat)
    requires Sound(m, g, size, mapped, view) && Shape(m, g) && 2 <= y.0 <= StoredHeight(m) && Child(y, i) !in g.at
    requires front == y.1 * Span(y.0) + i * Span(y.0 - 1) && Progress(g, view, d0, dst, d, visits, front)
    ensures Progress(g, view, d0, dst, d, visits, front + Span(y.0 - 1))
  {
    assert OpenProgress(Key);
    var c := Child(y, i);
    ChildSpan(y, i);
    forall x: nat | front <= x < front + Span(y.0 - 1)
      ensures x !in view && (1, x / LEAF_CAPACITY) !in g.at
    {
      SpanNoLeaf(m, g, c.0, c.1, x);
      SliceAt(m, g, size, mapped, view, x);
    }
    CopiedSkip(view, d0, dst, d, front, front + Span(y.0 - 1));
    VisitedSkip(g, visits, front, front + Span(y.0 - 1));
  }

  lemma SpanNoLeaf(m: Memory, g: Geometry, h: nat, k: nat, x: nat)
    requires Shape(m, g) && 1 <= h <= StoredHeight(m) && (h, k) !in g.at
    requires k * Span(h) <= x < k * Span(h) + Span(h)
    ensures (1, x / LEAF_CAPACITY) !in g.at
  {
    if (1, x / LEAF_CAPACITY) in g.at {
      LeafPage(m, g, x);
      Above(m, g, h, x);
      SpanPrefix(h, k, x);
    }
  }

  /** A leaf page holds the cells of its offsets. */
  lemma LeafCells(m: Memory, g: Geometry, size: nat, mapped: nat, view: map<nat, Cell>, k: nat)
    requires Sound(m, g, size, mapped, view) && Shape(m, g) && (1, k) in g.at
    ensures g.at[(1, k)] in m.leaf && |m.leaf[g.at[(1, k)]]| == LEAF_CAPACITY
    ensures CellsOf(m.leaf[g.at[(1, k)]], view, k * LEAF_CAPACITY)
  {
    PageAt(m, g, (1, k));
    forall i | 0 <= i < LEAF_CAPACITY
      ensures var x, c := k * LEAF_CAPACITY + i, m.leaf[g.at[(1, k)]][i]; (x in view <==> Bound(c)) && (x in view ==> view[x] == c)
    {
      var x := k * LEAF_CAPACITY + i;
      assert x / LEAF_CAPACITY == k && x % LEAF_CAPACITY == i;
      SliceAt(m, g, size, mapped, view, x);
    }
  }

  /** Visits the leaf page in the current slot. */
  method VisitLeaf<T>(src: Slice, dst: Slice, leaf: Ptr, base: nat, data: Pages<T>, ghost d0: Pages<T>, ghost visits: seq<nat>)
    returns (err: Error, data': Pages<T>, ghost visits': seq<nat>)
    requires src.Valid() && dst.Valid() && src != dst && src.size == dst.size && Backed(src.view, d0)
    requires Shape(src.m, src.g) && base % LEAF_CAPACITY == 0
    requires (1, base / LEAF_CAPACITY) in src.g.at && leaf == src.g.at[(1, base / LEAF_CAPACITY)]
    requires Progress(src.g, src.view, d0, dst.view, data, visits, base)
    modifies dst
    ensures dst.Valid() && dst.size == old(dst.size) && err in {Success, NoMem}
    ensures err == Success ==> Progress(src.g, src.view, d0, dst.view, data', visits', base + LEAF_CAPACITY)
  {
    assert OpenProgress(Key);
    LeafCells(src.m, src.g, src.size, src.mapped, src.view, base / LEAF_CAPACITY);
    Bounded(src.m, src.g, src.size, src.mapped, src.view);
    VisitedOne(src.g, visits, base);
    visits' := visits + [base];
    err, data' := CopyLeaf(dst, base, src.m.leaf[leaf], data, src.view, d0);
  }

  lemma Bounded(m: Memory, g: Geometry, size: nat, mapped: nat, view: map<nat, Cell>)
    requires Sound(m, g, size, mapped, view)
    ensures forall x :: x in view ==> x < PageCount(size)
  {
    OpenSlice(m, g, size, mapped, view);
  }

  /** The current slot, empty or leading to a leaf page. */
  method VisitSlot<T>(src: Slice, dst: Slice, w: Walk, h: nat, data: Pages<T>, ghost d0: Pages<T>, ghost visits: seq<nat>)
    returns (err: Error, data': Pages<T>, ghost visits': seq<nat>)
    requires src.Valid() && dst.Valid() && src != dst && src.size == dst.size && Backed(src.view, d0)
    requires Shape(src.m, src.g) && h == StoredHeight(src.m) && w.Shaped(h) && w.Here(h) in src.g.at
    requires w.index[w.cur] == src.g.at[w.Here(h)] && w.base[w.cur] == w.number[w.cur] * Span(h - w.cur)
    requires w.slot[w.cur] < INDEX_CAPACITY && (Child(w.Here(h), w.slot[w.cur]) in src.g.at ==> w.cur == h - 2)
    requires Progress(src.g, src.view, d0, dst.view, data, visits, w.Front(h))
    modifies dst
    ensures dst.Valid() && dst.size == old(dst.size) && err in {Success, NoMem}
    ensures err == Success ==> Progress(src.g, src.view, d0, dst.view, data', visits', w.Front(h) + Span(h - w.cur - 1))
  {
    var i := w.slot[w.cur];
    SlotAt(src.m, src.g, w.Here(h), i);
    var e := src.m.index[w.index[w.cur]][i];
    if e.Entry? {
      LeafFront(h, w);
      err, data', visits' := VisitLeaf(src, dst, e.ptr, w.base[w.cur] + i * LEAF_CAPACITY, data, d0, visits);
    } else {
      EmptySlot(src.m, src.g, src.size, src.mapped, src.view, w.Here(h), i, d0, dst.view, data, visits, w.Front(h));
      err, data', visits' := Success, data, visits;
    }
  }

  /** The walk is over: all slots of the root are done. */
  predicate Finished(w: Walk) { w.cur == 0 && |w.slot| > 0 && w.slot[0] >= INDEX_CAPACITY }

  /** Goes up from a page that is done, or down to an index page, if there is cause for either. */
  method Turn(m: Memory, w: Walk, h: nat, ghost g: Geometry) returns (turned: bool, w': Walk)
    requires Shape(m, g) && h == StoredHeight(m) && w.Shaped(h) && w.Ok(g, h) && !Finished(w)
    ensures turned ==> w'.Shaped(h) && w'.Ok(g, h) && w'.Front(h) == w.Front(h) && w'.Rank() < w.Rank()
    ensures !turned ==> w.slot[w.cur] < INDEX_CAPACITY && (Child(w.Here(h), w.slot[w.cur]) in g.at ==> w.cur == h - 2)
  {
    turned, w' := true, w;
    var i := w.slot[w.cur];
    if i >= INDEX_CAPACITY {
      w' := w.(cur := w.cur - 1, slot := w.slot[w.cur := 0][w.cur - 1 := w.slot[w.cur - 1] + 1]);
      WalkUp(g, h, w, w');
      return;
    }
    WalkHere(g, h, w);
    SlotAt(m, g, w.Here(h), i);
    var e := m.index[w.index[w.cur]][i];
    if w.cur < h - 2 && e.Entry? {
      w' := Walk(w.cur + 1, w.slot[w.cur + 1 := 0], w.index[w.cur + 1 := e.ptr],
                 w.base[w.cur + 1 := w.base[w.cur] + i * Span(h - w.cur - 1)],
                 w.number[w.cur + 1 := Child(w.Here(h), i).1]);
      WalkDown(g, h, w, e.ptr, w');
      return;
    }
    turned := false;
  }

  /** ps_clone_walk_mapped, from an index root. */
  method WalkIndex<T>(src: Slice, dst: Slice, data: Pages<T>) returns (err: Error, data': Pages<T>, ghost visits: seq<nat>)
    requires src.Valid() && dst.Valid() && src != dst && src.size == dst.size && Backed(src.view, data)
    requires Shape(src.m, src.g) && src.m.root.Entry? && src.m.root.height >= 2
    requires Progress(src.g, src.view, data, dst.view, data, [], 0)
    modifies dst
    ensures dst.Valid() && dst.size == old(dst.size) && err in {Success, NoMem}
    ensures err == Success ==> Progress(src.g, src.view, data, dst.view, data', visits, Span(src.m.root.height))
  {
    var h := src.m.root.height;
    var w := Walk(0, [0, 0, 0], [src.m.root.ptr, 0, 0], [0, 0, 0], [0, 0, 0]);
    WalkStart(src.m, src.g, w);
    err, data', visits := Success, data, [];
    while err == Success && !Finished(w)
      invariant dst.Valid() && dst.size == old(dst.size) && err in {Success, NoMem}
      invariant h == src.m.root.height && w.Shaped(h) && w.Ok(src.g, h)
      invariant err == Success ==> Progress(src.g, src.view, data, dst.view, data', visits, w.Front(h))
      decreases if err == Success then 1 else 0, Span(h) - w.Front(h), w.Rank()
    {
      WalkHere(src.g, h, w);
      FrontBound(src.g, h, w);
      var turned, w' := Turn(src.m, w, h, src.g);
      if !turned {
        err, data', visits := VisitSlot(src, dst, w, h, data', data, visits);
        w' := w.(slot := w.slot[w.cur := w.slot[w.cur] + 1]);
        WalkNext(src.g, h, w, w');
      }
      w := w';
    }
    FrontBound(src.g, h, w);
  }

  lemma LeafFront(h: nat, w: Walk)
    requires w.Shaped(h) && w.cur == h - 2 && w.base[w.cur] == w.number[w.cur] * Span(2)
    ensures var k := Child(w.Here(h), w.slot[w.cur]).1;
            w.Front(h) == k * LEAF_CAPACITY && w.Front(h) == w.base[w.cur] + w.slot[w.cur] * LEAF_CAPACITY
  {
    ChildSpan(w.Here(h), w.slot[w.cur]);
  }

  /** Beyond the span of the root there is nothing. */
  lemma BeyondRoot<T>(m: Memory, g: Geometry, size: nat, mapped: nat, view: map<nat, Cell>,
                      d0: Pages<T>, dst: map<nat, Cell>, d: Pages<T>, visits: seq<nat>, front: nat)
    requires Sound(m, g, size, mapped, view) && Shape(m, g) && Progress(g, view, d0, dst, d, visits, front)
    requires front == if m.root.Nil? then 0 else Span(m.root.height)
    ensures front <= MAX_PAGES && Progress(g, view, d0, dst, d, visits, MAX_PAGES)
  {
    assert OpenProgress(Key);
    if m.root.Entry? {
      RootAt(m, g);
    }
    forall x: nat | front <= x < MAX_PAGES
      ensures x !in view && (1, x / LEAF_CAPACITY) !in g.at
    {
      SliceAt(m, g, size, mapped, view, x);
      if m.root.Entry? {
        PrefixIsQuotient(m.root.height, x);
      }
      if (1, x / LEAF_CAPACITY) in g.at {
        LeafPage(m, g, x);
      }
    }
    CopiedSkip(view, d0, dst, d, front, MAX_PAGES);
    VisitedSkip(g, visits, front, MAX_PAGES);
  }

  lemma NothingYet<T>(g: Geometry, view: map<nat, Cell>, d: Pages<T>)
    requires PagesFresh(d)
    ensures Progress(g, view, d, map[], d, [], 0)
  {
  }

  /** ps_clone_walk_mapped: every leaf page of the source is visited exactly once, with its first offset. */
  method CloneWalk<T>(src: Slice, dst: Slice, data: Pages<T>) returns (err: Error, data': Pages<T>, ghost visits: seq<nat>)
    requires src.Valid() && dst.Valid() && src != dst && src.size == dst.size && dst.view == map[]
    requires PagesFresh(data) && Backed(src.view, data)
    modifies dst
    ensures dst.Valid() && dst.size == old(dst.size) && err in {Success, NoMem}
    ensures err == Success ==> Copied(src.view, data, dst.view, data', MAX_PAGES) && Visited(src.g, visits, MAX_PAGES)
  {
    SliceAt(src.m, src.g, src.size, src.mapped, src.view, 0);
    NothingYet(src.g, src.view, data);
    if src.m.root.Nil? {
      err, data', visits := Success, data, [];
    } else if src.m.root.height == 1 {
      RootAt(src.m, src.g);
      err, data', visits := VisitLeaf(src, dst, src.m.root.ptr, 0, data, data, []);
    } else {
      RootAt(src.m, src.g);
      err, data', visits := WalkIndex(src, dst, data);
    }
    if err == Success {
      BeyondRoot(src.m, src.g, src.size, src.mapped, src.view, data, dst.view, data', visits,
                 if src.m.root.Nil? then 0 else Span(src.m.root.height));
      assert OpenProgress(Key);
    }
  }

  /** page_slice_clone. */
  method Clone<T>(src: Slice, data: Pages<T>) returns (err: Error, dst: Slice?, data': Pages<T>)
    requires src.Valid() && PagesFresh(data) && Backed(src.view, data)
    ensures err in {Success, NoMem} && (err == Success <==> dst != null)
    ensures dst != null ==> fresh(dst) && dst.Valid() && dst.size == src.size && dst.view.Keys == src.view.Keys
    ensures dst != null ==> forall x :: x in src.view ==> CopyOf(src.view[x], data, dst.view[x], data')
    ensures dst != null ==> forall x, y :: x in src.view && y in src.view && x != y ==> dst.view[x].kva != dst.view[y].kva
    ensures dst != null ==> forall a :: a in data.content ==> a in data'.content && data'.content[a] == data.content[a]
  {
    SliceAt(src.m, src.g, src.size, src.mapped, src.view, 0);
    var ok: bool := *;
    if !ok {
      return NoMem, null, data;
    }
    var copy := new Slice(src.size);
    ghost var visits;
    err, data', visits := CloneWalk(src, copy, data);
    if err != Success {
      copy.Destroy();
      return err, null, data';
    }
    Bounded(src.m, src.g, src.size, src.mapped, src.view);
    dst := copy;
  }
}

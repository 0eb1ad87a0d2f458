/**
 Page-table pages of one address space: four levels of 512 entries, reached from one root page,
 together with the geometry that tells which page numbers a table serves.
 */
module PageTableMemory {

  const ENTRIES: nat := 512
  /** Virtual page numbers have four indices of nine bits. */
  const VPN_LIMIT: nat := 0x10_0000_0000

  /** An entry, with the architecture's encoding of everything but VALID and HUGE left abstract. */
  datatype Pte = Pte(ppn: nat, valid: bool, huge: bool, attrs: nat)

  const ZERO: Pte := Pte(0, false, false, 0)

  /** The pages in use as tables. */
  type Tables = map<nat, seq<Pte>>

  /** Level of a table and the index bits that lead to it. */
  type Position = (nat, nat)

  datatype Geometry = Geometry(at: map<Position, nat>, pos: map<nat, Position>)

  /** What a virtual page number is translated to: a 2M entry (level 2) or a 4K entry (level 3). */
  datatype Translation = Absent | Leaf(level: nat, pte: Pte)

  /** The index bits above level l: the number of the level-l table that serves x. */
  function Bits(l: nat, x: nat): nat
    decreases if l < 4 then 4 - l else 0, x
  {
    if l >= 4 then x else Bits(l + 1, x) / ENTRIES
  }

  function Index(l: nat, x: nat): (i: nat)
    ensures i < ENTRIES
  {
    Bits(l + 1, x) % ENTRIES
  }

  function Child(y: Position, i: nat): Position { (y.0 + 1, y.1 * ENTRIES + i) }

  function Parent(y: Position): Position
    requires y.0 > 0
  {
    (y.0 - 1, y.1 / ENTRIES)
  }

  /** The entry of a level-l table leads to a table. */
  predicate LeadsOn(l: nat, e: Pte) { e.valid && (l < 2 || (l == 2 && !e.huge)) }

  ghost predicate SlotOk(m: Tables, g: Geometry, p: nat, i: nat)
    requires p in m && p in g.pos && i < |m[p]|
  {
    var e, y := m[p][i], g.pos[p];
    && (LeadsOn(y.0, e) <==> y.0 < 3 && Child(y, i) in g.at)
    && (LeadsOn(y.0, e) ==> e.ppn == g.at[Child(y, i)])
    && (y.0 < 2 && e.valid ==> !e.huge)
  }

  ghost predicate GeometryOk(m: Tables, g: Geometry)
  {
    && (forall y :: y in g.at ==> g.at[y] in g.pos && g.pos[g.at[y]] == y)
    && (forall p :: p in g.pos ==> g.pos[p].0 <= 3 && g.pos[p] in g.at && g.at[g.pos[p]] == p)
    && (forall p :: p in m <==> p in g.pos)
    && (forall p :: p in m ==> |m[p]| == ENTRIES)
  }

  ghost predicate Connected(g: Geometry, root: nat)
  {
    && (0, 0) in g.at && g.at[(0, 0)] == root
    && (forall y: Position :: y in g.at && y.0 == 0 ==> y.1 == 0)
    && (forall y: Position {:trigger Parent(y)} :: y in g.at && y.0 > 0 ==> Parent(y) in g.at)
  }

  ghost predicate SlotsOk(m: Tables, g: Geometry)
    requires GeometryOk(m, g)
  {
    forall p, i :: p in m && 0 <= i < ENTRIES ==> SlotOk(m, g, p, i)
  }

  /** The tables form a tree below the root and every table is where the entries above say. */
  ghost predicate WellFormed(m: Tables, g: Geometry, root: nat)
  {
    GeometryOk(m, g) && Connected(g, root) && SlotsOk(m, g)
  }

  datatype Key = Key
  ghost predicate OpenShape(k: Key) { true }

  /** WellFormed, folded. */
  ghost predicate Shape(m: Tables, g: Geometry, root: nat)
  {
    forall k: Key {:trigger OpenShape(k)} :: OpenShape(k) ==> WellFormed(m, g, root)
  }

  lemma Unfold(m: Tables, g: Geometry, root: nat)
    requires Shape(m, g, root)
    ensures WellFormed(m, g, root)
  {
    assert OpenShape(Key);
  }

  lemma Fold(m: Tables, g: Geometry, root: nat)
    requires WellFormed(m, g, root)
    ensures Shape(m, g, root)
  {
  }

  // ---------------------------------------------------------------------------------------------
  // The partial translation map
  // ---------------------------------------------------------------------------------------------

  /** The entry of the level-l table that serves x. */
  function EntryFor(m: Tables, g: Geometry, l: nat, x: nat): Pte
  {
    var y := (l, Bits(l, x));
    if y in g.at && g.at[y] in m && Index(l, x) < |m[g.at[y]]| then m[g.at[y]][Index(l, x)] else ZERO
  }

  /** What x is translated to. */
  function Lookup(m: Tables, g: Geometry, x: nat): Translation
  {
    var e2, e3 := EntryFor(m, g, 2, x), EntryFor(m, g, 3, x);
    if e2.valid && e2.huge then Leaf(2, e2) else if e3.valid then Leaf(3, e3) else Absent
  }

  ghost predicate OpenLookups(k: Key) { true }

  /** No translation differs (folded). */
  ghost predicate SameLookups(m: Tables, g: Geometry, m': Tables, g': Geometry)
  {
    forall k: Key, x: nat {:trigger OpenLookups(k), Lookup(m', g', x)} {:trigger OpenLookups(k), Lookup(m, g, x)} :: OpenLookups(k) ==> Lookup(m', g', x) == Lookup(m, g, x)
  }

  lemma ParentOfChild(y: Position, i: nat)
    requires i < ENTRIES
    ensures Parent(Child(y, i)) == y && Child(y, i).1 % ENTRIES == i
  {
  }

  lemma ChildOfParent(y: Position)
    requires y.0 > 0
    ensures Child(Parent(y), y.1 % ENTRIES) == y
  {
  }

  lemma ChildUnique(y: Position, i: nat, z: Position, j: nat)
    requires i < ENTRIES && j < ENTRIES && Child(y, i) == Child(z, j)
    ensures y == z && i == j
  {
    ParentOfChild(y, i);
    ParentOfChild(z, j);
  }

  /** Slot i of the level-l table numbered k serves x exactly if the next bits of x say so. */
  lemma BitsStep(l: nat, x: nat)
    requires l < 4
    ensures (l + 1, Bits(l + 1, x)) == Child((l, Bits(l, x)), Index(l, x))
  {
  }

  /** The smallest page number with the given level-l bits. */
  function First(l: nat, k: nat): nat
    decreases if l < 4 then 4 - l else 0, k
  {
    if l >= 4 then k else First(l + 1, k * ENTRIES)
  }

  lemma {:induction false} FirstBits(l: nat, k: nat)
    requires l <= 4
    ensures Bits(l, First(l, k)) == k
    decreases 4 - l
  {
    if l < 4 {
      FirstBits(l + 1, k * ENTRIES);
    }
  }

  lemma {:induction false} FirstGrows(l: nat, k: nat, j: nat)
    requires l <= 4 && k < j
    ensures First(l, k) < First(l, j)
    decreases 4 - l
  {
    if l < 4 {
      FirstGrows(l + 1, k * ENTRIES, j * ENTRIES);
    }
  }

  /** The pages with level-l bits k are a run. */
  lemma {:induction false} BandRun(l: nat, k: nat, x: nat)
    requires l <= 4
    ensures Bits(l, x) == k <==> First(l, k) <= x < First(l, k + 1)
    ensures Bits(l, x) >= k <==> First(l, k) <= x
    decreases 4 - l
  {
    if l < 4 {
      BandRun(l + 1, k * ENTRIES, x);
      BandRun(l + 1, (k + 1) * ENTRIES, x);
    }
  }

  // ---------------------------------------------------------------------------------------------
  // Writing an entry that is not and does not become a link
  // ---------------------------------------------------------------------------------------------

  function Put(m: Tables, p: nat, i: nat, e: Pte): Tables
    requires p in m && i < |m[p]|
  {
    m[p := m[p][i := e]]
  }

  lemma PutGeometry(m: Tables, g: Geometry, p: nat, i: nat, e: Pte, m': Tables)
    requires GeometryOk(m, g) && p in m && i < |m[p]| && m' == Put(m, p, i, e)
    ensures GeometryOk(m', g)
  {
  }

  lemma PutSlots(m: Tables, g: Geometry, p: nat, i: nat, e: Pte, m': Tables)
    requires GeometryOk(m, g) && SlotsOk(m, g) && GeometryOk(m', g) && p in m && i < ENTRIES && m' == Put(m, p, i, e)
    requires g.pos[p].0 >= 2 && !LeadsOn(g.pos[p].0, e) && !LeadsOn(g.pos[p].0, m[p][i])
    ensures SlotsOk(m', g)
  {
    forall q, j | q in m' && 0 <= j < ENTRIES
      ensures SlotOk(m', g, q, j)
    {
      assert SlotOk(m, g, q, j);
    }
  }

  lemma PutShape(m: Tables, g: Geometry, root: nat, p: nat, i: nat, e: Pte, m': Tables)
    requires Shape(m, g, root) && p in m && i < ENTRIES && i < |m[p]| && m' == Put(m, p, i, e)
    requires p in g.pos && g.pos[p].0 >= 2 && !LeadsOn(g.pos[p].0, e) && !LeadsOn(g.pos[p].0, m[p][i])
    ensures Shape(m', g, root)
  {
    Unfold(m, g, root);
    PutGeometry(m, g, p, i, e, m');
    PutSlots(m, g, p, i, e, m');
    Fold(m', g, root);
  }

  /** An entry of another slot is not touched. */
  lemma PutElsewhere(m: Tables, g: Geometry, p: nat, i: nat, e: Pte, m': Tables, l: nat, x: nat)
    requires GeometryOk(m, g) && p in m && i < ENTRIES && m' == Put(m, p, i, e) && l <= 3
    requires (l + 1, Bits(l + 1, x)) != Child(g.pos[p], i)
    ensures EntryFor(m', g, l, x) == EntryFor(m, g, l, x)
  {
    BitsStep(l, x);
  }

  lemma PutHere(m: Tables, g: Geometry, p: nat, i: nat, e: Pte, m': Tables, l: nat, x: nat)
    requires GeometryOk(m, g) && p in m && i < ENTRIES && m' == Put(m, p, i, e) && l <= 3
    requires (l + 1, Bits(l + 1, x)) == Child(g.pos[p], i)
    ensures EntryFor(m', g, l, x) == e && EntryFor(m, g, l, x) == m[p][i]
  {
    BitsStep(l, x);
    ChildUnique((l, Bits(l, x)), Index(l, x), g.pos[p], i);
  }

  /** A 4K entry decides the translation of one page number. */
  lemma PutLeaf3(m: Tables, g: Geometry, root: nat, p: nat, i: nat, e: Pte, m': Tables)
    requires Shape(m, g, root) && p in m && p in g.pos && g.pos[p].0 == 3 && i < ENTRIES && i < |m[p]| && m' == Put(m, p, i, e)
    ensures Shape(m', g, root)
    ensures forall x: nat :: Lookup(m', g, x) == if x == Child(g.pos[p], i).1 then (if e.valid then Leaf(3, e) else Absent) else Lookup(m, g, x)
  {
    PutShape(m, g, root, p, i, e, m');
    Unfold(m, g, root);
    forall x: nat
      ensures Lookup(m', g, x) == if x == Child(g.pos[p], i).1 then (if e.valid then Leaf(3, e) else Absent) else Lookup(m, g, x)
    {
      PutLeaf3At(m, g, root, p, i, e, m', x);
    }
  }

  lemma PutLeaf3At(m: Tables, g: Geometry, root: nat, p: nat, i: nat, e: Pte, m': Tables, x: nat)
    requires WellFormed(m, g, root) && p in m && g.pos[p].0 == 3 && i < ENTRIES && m' == Put(m, p, i, e)
    ensures Lookup(m', g, x) == if x == Child(g.pos[p], i).1 then (if e.valid then Leaf(3, e) else Absent) else Lookup(m, g, x)
  {
    PutElsewhere(m, g, p, i, e, m', 2, x);
    if x == Child(g.pos[p], i).1 {
      PutHere(m, g, p, i, e, m', 3, x);
      BitsStep(3, x);
      ChildUnique((3, Bits(3, x)), Index(3, x), g.pos[p], i);
      assert Parent(g.pos[p]) in g.at;
      NoBlockAbove(m, g, x);
    } else {
      PutElsewhere(m, g, p, i, e, m', 3, x);
    }
  }

  /** Where there is a level-3 table there is no 2M entry. */
  lemma NoBlockAbove(m: Tables, g: Geometry, x: nat)
    requires GeometryOk(m, g) && SlotsOk(m, g)
    requires (3, Bits(3, x)) in g.at && (2, Bits(2, x)) in g.at
    ensures EntryFor(m, g, 2, x).valid && !EntryFor(m, g, 2, x).huge
  {
    BitsStep(2, x);
    assert SlotOk(m, g, g.at[(2, Bits(2, x))], Index(2, x));
  }

  /** A 2M entry, or none, where no table hangs decides the translation of a block of 512 page numbers. */
  lemma PutLeaf2(m: Tables, g: Geometry, root: nat, p: nat, i: nat, e: Pte, m': Tables)
    requires Shape(m, g, root) && p in m && p in g.pos && g.pos[p].0 == 2 && i < ENTRIES && i < |m[p]| && m' == Put(m, p, i, e)
    requires !LeadsOn(2, e) && !LeadsOn(2, m[p][i])
    ensures Shape(m', g, root)
    ensures forall x: nat ::
              Lookup(m', g, x) == if Bits(3, x) == Child(g.pos[p], i).1 then (if e.valid then Leaf(2, e) else Absent) else Lookup(m, g, x)
  {
    PutShape(m, g, root, p, i, e, m');
    Unfold(m, g, root);
    forall x: nat
      ensures Lookup(m', g, x) == if Bits(3, x) == Child(g.pos[p], i).1 then (if e.valid then Leaf(2, e) else Absent) else Lookup(m, g, x)
    {
      PutElsewhere(m, g, p, i, e, m', 3, x);
      if Bits(3, x) == Child(g.pos[p], i).1 {
        PutHere(m, g, p, i, e, m', 2, x);
        assert SlotOk(m, g, p, i);
        NoTable(m, g, 3, x);
      } else {
        PutElsewhere(m, g, p, i, e, m', 2, x);
      }
    }
  }

  lemma NoTable(m: Tables, g: Geometry, l: nat, x: nat)
    requires (l, Bits(l, x)) !in g.at
    ensures EntryFor(m, g, l, x) == ZERO
  {
  }

  // ---------------------------------------------------------------------------------------------
  // Hanging a new table into an entry
  // ---------------------------------------------------------------------------------------------

  predicate AllInvalid(t: seq<Pte>) { forall i :: 0 <= i < |t| ==> !t[i].valid }

  function Zeroed(): (t: seq<Pte>)
    ensures |t| == ENTRIES && AllInvalid(t) && forall i :: 0 <= i < |t| ==> t[i] == ZERO
  {
    seq(ENTRIES, _ => ZERO)
  }

  function Hang(m: Tables, p: nat, i: nat, e: Pte, content: seq<Pte>): Tables
    requires p in m && i < |m[p]|
  {
    Put(m, p, i, e)[e.ppn := content]
  }

  function Place(g: Geometry, y: Position, p: nat): Geometry { Geometry(g.at[y := p], g.pos[p := y]) }

  /** An entry can take a new table: nothing hangs there, and the page is not in use. */
  ghost predicate Hangable(m: Tables, g: Geometry, p: nat, i: nat, e: Pte, content: seq<Pte>)
  {
    && p in m && p in g.pos && g.pos[p].0 < 3 && i < ENTRIES && i < |m[p]| && !m[p][i].valid
    && LeadsOn(g.pos[p].0, e) && !e.huge && e.ppn !in m && |content| == ENTRIES
    && (g.pos[p].0 < 2 ==> AllInvalid(content))
  }

  lemma HangGeometry(m: Tables, g: Geometry, p: nat, i: nat, e: Pte, content: seq<Pte>, m': Tables, g': Geometry)
    requires GeometryOk(m, g) && Hangable(m, g, p, i, e, content) && Child(g.pos[p], i) !in g.at
    requires m' == Hang(m, p, i, e, content) && g' == Place(g, Child(g.pos[p], i), e.ppn)
    ensures GeometryOk(m', g')
  {
  }

  lemma HangConnected(g: Geometry, root: nat, p: nat, i: nat, n: nat, g': Geometry)
    requires Connected(g, root) && p in g.pos && g.pos[p] in g.at && i < ENTRIES && Child(g.pos[p], i) !in g.at
    requires g' == Place(g, Child(g.pos[p], i), n)
    ensures Connected(g', root)
  {
    ParentOfChild(g.pos[p], i);
  }

  /** Nothing hangs below a position that is not in use. */
  lemma NoGrandchild(g: Geometry, root: nat, y: Position, j: nat)
    requires Connected(g, root) && y !in g.at && j < ENTRIES
    ensures Child(y, j) !in g.at
  {
    ParentOfChild(y, j);
  }

  lemma HangSlotOld(m: Tables, g: Geometry, p: nat, i: nat, e: Pte, content: seq<Pte>, m': Tables, g': Geometry, q: nat, j: nat)
    requires GeometryOk(m, g) && GeometryOk(m', g') && Hangable(m, g, p, i, e, content)
    requires m' == Hang(m, p, i, e, content) && g' == Place(g, Child(g.pos[p], i), e.ppn)
    requires q in m && j < ENTRIES && SlotOk(m, g, q, j)
    ensures q in m' && SlotOk(m', g', q, j)
  {
    if Child(g.pos[q], j) == Child(g.pos[p], i) {
      ChildUnique(g.pos[q], j, g.pos[p], i);
    }
  }

  lemma HangSlots(m: Tables, g: Geometry, root: nat, p: nat, i: nat, e: Pte, content: seq<Pte>, m': Tables, g': Geometry)
    requires GeometryOk(m, g) && SlotsOk(m, g) && Connected(g, root) && GeometryOk(m', g')
    requires Hangable(m, g, p, i, e, content) && Child(g.pos[p], i) !in g.at
    requires m' == Hang(m, p, i, e, content) && g' == Place(g, Child(g.pos[p], i), e.ppn)
    ensures SlotsOk(m', g')
  {
    forall q, j | q in m' && 0 <= j < ENTRIES
      ensures SlotOk(m', g', q, j)
    {
      if q == e.ppn {
        NoGrandchild(g, root, Child(g.pos[p], i), j);
      } else {
        assert SlotOk(m, g, q, j);
        HangSlotOld(m, g, p, i, e, content, m', g', q, j);
      }
    }
  }

  lemma HangShape(m: Tables, g: Geometry, root: nat, p: nat, i: nat, e: Pte, content: seq<Pte>, m': Tables, g': Geometry)
    requires Shape(m, g, root) && Hangable(m, g, p, i, e, content)
    requires m' == Hang(m, p, i, e, content) && g' == Place(g, Child(g.pos[p], i), e.ppn)
    ensures Child(g.pos[p], i) !in g.at && Shape(m', g', root)
  {
    Unfold(m, g, root);
    assert SlotOk(m, g, p, i);
    HangGeometry(m, g, p, i, e, content, m', g');
    HangConnected(g, root, p, i, e.ppn, g');
    HangSlots(m, g, root, p, i, e, content, m', g');
    Fold(m', g', root);
  }

  /** Entries of the other tables. */
  lemma HangElsewhere(m: Tables, g: Geometry, p: nat, i: nat, e: Pte, content: seq<Pte>, m': Tables, g': Geometry, l: nat, x: nat)
    requires GeometryOk(m, g) && Hangable(m, g, p, i, e, content) && l <= 3
    requires m' == Hang(m, p, i, e, content) && g' == Place(g, Child(g.pos[p], i), e.ppn)
    requires (l, Bits(l, x)) != Child(g.pos[p], i) && (l + 1, Bits(l + 1, x)) != Child(g.pos[p], i)
    ensures EntryFor(m', g', l, x) == EntryFor(m, g, l, x)
  {
    BitsStep(l, x);
  }

  lemma HangHere(m: Tables, g: Geometry, p: nat, i: nat, e: Pte, content: seq<Pte>, m': Tables, g': Geometry, x: nat)
    requires GeometryOk(m, g) && Hangable(m, g, p, i, e, content)
    requires m' == Hang(m, p, i, e, content) && g' == Place(g, Child(g.pos[p], i), e.ppn)
    requires Bits(g.pos[p].0 + 1, x) == Child(g.pos[p], i).1
    ensures EntryFor(m', g', g.pos[p].0, x) == e && EntryFor(m, g, g.pos[p].0, x) == m[p][i]
    ensures EntryFor(m', g', g.pos[p].0 + 1, x) == content[Index(g.pos[p].0 + 1, x)]
  {
    BitsStep(g.pos[p].0, x);
    ChildUnique((g.pos[p].0, Bits(g.pos[p].0, x)), Index(g.pos[p].0, x), g.pos[p], i);
  }

  /** The page numbers that the new table serves. */
  lemma HangLookupHere(m: Tables, g: Geometry, p: nat, i: nat, e: Pte, content: seq<Pte>, m': Tables, g': Geometry, x: nat)
    requires GeometryOk(m, g) && Hangable(m, g, p, i, e, content) && Child(g.pos[p], i) !in g.at
    requires m' == Hang(m, p, i, e, content) && g' == Place(g, Child(g.pos[p], i), e.ppn)
    requires Bits(g.pos[p].0 + 1, x) == Child(g.pos[p], i).1
    ensures g.pos[p].0 < 2 ==> Lookup(m', g', x) == Lookup(m, g, x)
    ensures g.pos[p].0 == 2 ==> Lookup(m', g', x) == if content[Index(3, x)].valid then Leaf(3, content[Index(3, x)]) else Lookup(m, g, x)
  {
    var l := g.pos[p].0;
    HangHere(m, g, p, i, e, content, m', g', x);
    NoTable(m, g, l + 1, x);
    if l == 0 {
      HangElsewhere(m, g, p, i, e, content, m', g', 2, x);
    }
    if l < 2 {
      HangElsewhere(m, g, p, i, e, content, m', g', 3, x);
    }
  }

  /** A table whose entries are all invalid translates nothing; any other content shows in its block. */
  lemma HangLookup(m: Tables, g: Geometry, p: nat, i: nat, e: Pte, content: seq<Pte>, m': Tables, g': Geometry, x: nat)
    requires GeometryOk(m, g) && Hangable(m, g, p, i, e, content) && Child(g.pos[p], i) !in g.at
    requires m' == Hang(m, p, i, e, content) && g' == Place(g, Child(g.pos[p], i), e.ppn)
    ensures Lookup(m', g', x)
            == if g.pos[p].0 == 2 && Bits(3, x) == Child(g.pos[p], i).1 && content[Index(3, x)].valid
               then Leaf(3, content[Index(3, x)]) else Lookup(m, g, x)
  {
    if Bits(g.pos[p].0 + 1, x) == Child(g.pos[p], i).1 {
      HangLookupHere(m, g, p, i, e, content, m', g', x);
    } else {
      HangElsewhere(m, g, p, i, e, content, m', g', 2, x);
      HangElsewhere(m, g, p, i, e, content, m', g', 3, x);
    }
  }

  // ---------------------------------------------------------------------------------------------
  // Taking a table out of an entry
  // ---------------------------------------------------------------------------------------------

  function Cut(m: Tables, p: nat, i: nat, e: Pte, q: nat): Tables
    requires p in m && i < |m[p]|
  {
    Put(m, p, i, e) - {q}
  }

  function Unplace(g: Geometry, p: nat): Geometry
    requires p in g.pos
  {
    Geometry(g.at - {g.pos[p]}, g.pos - {p})
  }

  /** The entry leads to table q, which leads no further; e does not lead to a table. */
  ghost predicate Cuttable(m: Tables, g: Geometry, p: nat, i: nat, e: Pte, q: nat)
  {
    && p in m && p in g.pos && g.pos[p].0 < 3 && i < ENTRIES && i < |m[p]| && LeadsOn(g.pos[p].0, m[p][i]) && m[p][i].ppn == q
    && !LeadsOn(g.pos[p].0, e) && (g.pos[p].0 < 2 ==> !e.valid)
    && q in m && q in g.pos && g.pos[q] == Child(g.pos[p], i) && q != p
    && forall j :: 0 <= j < |m[q]| ==> !LeadsOn(g.pos[q].0, m[q][j])
  }

  lemma CutGeometry(m: Tables, g: Geometry, p: nat, i: nat, e: Pte, q: nat, m': Tables, g': Geometry)
    requires GeometryOk(m, g) && Cuttable(m, g, p, i, e, q) && m' == Cut(m, p, i, e, q) && g' == Unplace(g, q)
    ensures GeometryOk(m', g')
  {
  }

  lemma CutConnected(m: Tables, g: Geometry, root: nat, p: nat, i: nat, e: Pte, q: nat, g': Geometry)
    requires GeometryOk(m, g) && SlotsOk(m, g) && Connected(g, root) && Cuttable(m, g, p, i, e, q) && g' == Unplace(g, q)
    ensures Connected(g', root)
  {
    forall y: Position | y in g'.at && y.0 > 0
      ensures Parent(y) in g'.at
    {
      ChildOfParent(y);
      assert g.at[y] in g.pos;
      assert SlotOk(m, g, q, y.1 % ENTRIES);
    }
  }

  lemma CutSlots(m: Tables, g: Geometry, p: nat, i: nat, e: Pte, q: nat, m': Tables, g': Geometry)
    requires GeometryOk(m, g) && SlotsOk(m, g) && GeometryOk(m', g')
    requires Cuttable(m, g, p, i, e, q) && m' == Cut(m, p, i, e, q) && g' == Unplace(g, q)
    ensures SlotsOk(m', g')
  {
    forall r, j | r in m' && 0 <= j < ENTRIES
      ensures SlotOk(m', g', r, j)
    {
      assert SlotOk(m, g, r, j);
      if Child(g.pos[r], j) == Child(g.pos[p], i) {
        ChildUnique(g.pos[r], j, g.pos[p], i);
      }
    }
  }

  lemma CutShape(m: Tables, g: Geometry, root: nat, p: nat, i: nat, e: Pte, q: nat, m': Tables, g': Geometry)
    requires Shape(m, g, root) && Cuttable(m, g, p, i, e, q) && m' == Cut(m, p, i, e, q) && g' == Unplace(g, q)
    ensures Shape(m', g', root)
  {
    Unfold(m, g, root);
    CutGeometry(m, g, p, i, e, q, m', g');
    CutConnected(m, g, root, p, i, e, q, g');
    CutSlots(m, g, p, i, e, q, m', g');
    Fold(m', g', root);
  }

  lemma CutElsewhere(m: Tables, g: Geometry, p: nat, i: nat, e: Pte, q: nat, m': Tables, g': Geometry, l: nat, x: nat)
    requires GeometryOk(m, g) && Cuttable(m, g, p, i, e, q) && m' == Cut(m, p, i, e, q) && g' == Unplace(g, q) && l <= 3
    requires (l, Bits(l, x)) != Child(g.pos[p], i) && (l + 1, Bits(l + 1, x)) != Child(g.pos[p], i)
    ensures EntryFor(m', g', l, x) == EntryFor(m, g, l, x)
  {
    BitsStep(l, x);
  }

  lemma CutHere(m: Tables, g: Geometry, p: nat, i: nat, e: Pte, q: nat, m': Tables, g': Geometry, x: nat)
    requires GeometryOk(m, g) && Cuttable(m, g, p, i, e, q) && m' == Cut(m, p, i, e, q) && g' == Unplace(g, q)
    requires Bits(g.pos[p].0 + 1, x) == Child(g.pos[p], i).1
    ensures EntryFor(m', g', g.pos[p].0, x) == e && EntryFor(m', g', g.pos[p].0 + 1, x) == ZERO
    ensures EntryFor(m, g, g.pos[p].0 + 1, x) == m[q][Index(g.pos[p].0 + 1, x)]
    ensures EntryFor(m, g, g.pos[p].0, x) == m[p][i]
  {
    BitsStep(g.pos[p].0, x);
    ChildUnique((g.pos[p].0, Bits(g.pos[p].0, x)), Index(g.pos[p].0, x), g.pos[p], i);
  }

  /** Taking out a table without valid entries changes no translation. */
  lemma CutEmptyLookup(m: Tables, g: Geometry, p: nat, i: nat, q: nat, m': Tables, g': Geometry, x: nat)
    requires GeometryOk(m, g) && Cuttable(m, g, p, i, ZERO, q) && m' == Cut(m, p, i, ZERO, q) && g' == Unplace(g, q)
    requires AllInvalid(m[q])
    ensures Lookup(m', g', x) == Lookup(m, g, x)
  {
    var l := g.pos[p].0;
    if Bits(l + 1, x) == Child(g.pos[p], i).1 {
      CutHere(m, g, p, i, ZERO, q, m', g', x);
      if l == 0 {
        CutElsewhere(m, g, p, i, ZERO, q, m', g', 2, x);
      }
      if l < 2 {
        CutElsewhere(m, g, p, i, ZERO, q, m', g', 3, x);
      }
    } else {
      CutElsewhere(m, g, p, i, ZERO, q, m', g', 2, x);
      CutElsewhere(m, g, p, i, ZERO, q, m', g', 3, x);
    }
  }

  /** Replacing a level-3 table by a 2M entry decides the whole block. */
  lemma CutBlockLookup(m: Tables, g: Geometry, p: nat, i: nat, e: Pte, q: nat, m': Tables, g': Geometry, x: nat)
    requires GeometryOk(m, g) && Cuttable(m, g, p, i, e, q) && m' == Cut(m, p, i, e, q) && g' == Unplace(g, q) && g.pos[p].0 == 2
    ensures Lookup(m', g', x)
            == if Bits(3, x) == Child(g.pos[p], i).1 then (if e.valid then Leaf(2, e) else Absent) else Lookup(m, g, x)
  {
    if Bits(3, x) == Child(g.pos[p], i).1 {
      CutHere(m, g, p, i, e, q, m', g', x);
    } else {
      CutElsewhere(m, g, p, i, e, q, m', g', 2, x);
      CutElsewhere(m, g, p, i, e, q, m', g', 3, x);
    }
  }
}

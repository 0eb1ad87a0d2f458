/** map_handler.c: mapping, unmapping and querying pages of one address space. */
module PageTables {
  import opened PageTableMemory

  datatype Error = Success | InParam | Fail

  /** The part of the entry flags that matters here; software bits are stripped before an entry is written. */
  datatype Flags = Flags(valid: bool, huge: bool, attrs: nat, remap: bool)

  /** A page held ready for a new table, with whatever it contains. */
  datatype Spare = NoPage | Page(ppn: nat, content: seq<Pte>)

  /** Attributes of an entry that leads to a table: readable, writable, executable, for user mode. */
  const TABLE_ATTRS: nat := 0x3c

  function TableEntry(p: nat): Pte { Pte(p, true, false, TABLE_ATTRS) }
  function Leaf2Entry(p: nat, f: Flags): Pte { Pte(p, f.valid, true, f.attrs) }
  function Leaf3Entry(p: nat, f: Flags): Pte { Pte(p, f.valid, f.huge, f.attrs) }

  /** Spare pages are whole pages, not in use as tables, and different from each other. */
  ghost predicate Stocked(m: Tables, spare: seq<Spare>, next: nat)
  {
    && |spare| == 4
    && (forall p :: p in m ==> p < next)
    && (forall i :: 0 <= i < 4 && spare[i].Page? ==> spare[i].ppn < next && spare[i].ppn !in m && |spare[i].content| == ENTRIES)
    && (forall i, j :: 0 <= i < j < 4 && spare[i].Page? && spare[j].Page? ==> spare[i].ppn != spare[j].ppn)
  }

  /** Pages given back: each once, and none of them still a table. */
  ghost predicate FreedOnce(m: Tables, spare: seq<Spare>, freed: seq<nat>, next: nat)
  {
    && (forall i :: 0 <= i < |freed| ==> freed[i] < next && freed[i] !in m)
    && (forall i, j :: 0 <= i < j < |freed| ==> freed[i] != freed[j])
    && (forall i, k :: 0 <= i < |freed| && 0 <= k < |spare| && spare[k].Page? ==> spare[k].ppn != freed[i])
  }

  ghost predicate OpenBooks(k: Key) { true }

  /** Stocked and FreedOnce, folded. */
  ghost predicate Books(m: Tables, spare: seq<Spare>, freed: seq<nat>, next: nat)
  {
    |spare| == 4 && forall k: Key {:trigger OpenBooks(k)} :: OpenBooks(k) ==> Stocked(m, spare, next) && FreedOnce(m, spare, freed, next)
  }

  lemma SpareOk(m: Tables, spare: seq<Spare>, freed: seq<nat>, next: nat, j: nat)
    requires Books(m, spare, freed, next) && j < 4 && spare[j].Page?
    ensures spare[j].ppn !in m && |spare[j].content| == ENTRIES
  {
    assert OpenBooks(Key);
  }

  lemma HangSpare(m: Tables, spare: seq<Spare>, freed: seq<nat>, next: nat, j: nat, p: nat, i: nat, content: seq<Pte>)
    requires Books(m, spare, freed, next) && j < 4 && spare[j].Page? && p in m && i < |m[p]|
    ensures Books(Hang(m, p, i, TableEntry(spare[j].ppn), content), spare[j := NoPage], freed, next)
  {
    TakeSpare(m, spare, freed, next, j, Hang(m, p, i, TableEntry(spare[j].ppn), content));
  }

  lemma TakeSpare(m: Tables, spare: seq<Spare>, freed: seq<nat>, next: nat, j: nat, m': Tables)
    requires Books(m, spare, freed, next) && j < 4 && spare[j].Page? && m'.Keys == m.Keys + {spare[j].ppn}
    ensures Books(m', spare[j := NoPage], freed, next)
  {
    assert OpenBooks(Key);
    assert forall p :: p in m' <==> p in m || p == spare[j].ppn;
  }

  lemma SamePages(m: Tables, spare: seq<Spare>, freed: seq<nat>, next: nat, m': Tables)
    requires Books(m, spare, freed, next) && m'.Keys == m.Keys
    ensures Books(m', spare, freed, next)
  {
    assert OpenBooks(Key);
    assert forall p :: p in m' <==> p in m;
  }

  /** A table goes out of use, and back to the allocator if `back`. */
  lemma DropPage(m: Tables, spare: seq<Spare>, freed: seq<nat>, next: nat, q: nat, back: bool, m': Tables)
    requires Books(m, spare, freed, next) && q in m && m'.Keys == m.Keys - {q}
    ensures Books(m', spare, if back then freed + [q] else freed, next)
  {
    assert OpenBooks(Key);
    assert forall p :: p in m' <==> p in m && p != q;
  }

  /** The level-2 entry for x is not valid but has the huge bit. */
  ghost predicate StaleHuge(m: Tables, g: Geometry, x: nat)
  {
    !EntryFor(m, g, 2, x).valid && EntryFor(m, g, 2, x).huge
  }

  predicate AllZero(t: seq<Pte>) { forall i :: 0 <= i < |t| ==> t[i] == ZERO }

  /** The table at level l that serves x is page p. */
  ghost predicate Reached(m: Tables, g: Geometry, l: nat, x: nat, p: nat)
  {
    (l, Bits(l, x)) in g.at && g.at[(l, Bits(l, x))] == p && p in m && |m[p]| == ENTRIES && p in g.pos && g.pos[p] == (l, Bits(l, x))
  }

  lemma RootReached(m: Tables, g: Geometry, root: nat, x: nat)
    requires Shape(m, g, root) && x < VPN_LIMIT
    ensures Reached(m, g, 0, x, root)
  {
    Unfold(m, g, root);
    assert Bits(3, x) == Bits(4, x) / ENTRIES;
    assert Bits(2, x) == Bits(3, x) / ENTRIES;
    assert Bits(1, x) == Bits(2, x) / ENTRIES;
    assert Bits(0, x) == Bits(1, x) / ENTRIES;
  }

  /** Following a link. */
  lemma LinkReached(m: Tables, g: Geometry, root: nat, l: nat, x: nat, p: nat)
    requires Shape(m, g, root) && l < 3 && Reached(m, g, l, x, p)
    ensures LeadsOn(l, m[p][Index(l, x)]) ==> Reached(m, g, l + 1, x, m[p][Index(l, x)].ppn)
    ensures !LeadsOn(l, m[p][Index(l, x)]) ==> (l + 1, Bits(l + 1, x)) !in g.at
    ensures l < 2 && m[p][Index(l, x)].valid ==> LeadsOn(l, m[p][Index(l, x)])
    ensures EntryFor(m, g, l, x) == m[p][Index(l, x)]
  {
    Unfold(m, g, root);
    BitsStep(l, x);
    assert SlotOk(m, g, p, Index(l, x));
  }

  lemma TableAbove(m: Tables, g: Geometry, root: nat, k: nat, x: nat)
    requires Shape(m, g, root) && 0 < k <= 3 && (k, Bits(k, x)) in g.at
    ensures (k - 1, Bits(k - 1, x)) in g.at
  {
    Unfold(m, g, root);
    assert Parent((k, Bits(k, x))) == (k - 1, Bits(k - 1, x));
  }

  /** Without a table at level l there is none below. */
  lemma {:induction false} NoneBelow(m: Tables, g: Geometry, root: nat, l: nat, k: nat, x: nat)
    requires Shape(m, g, root) && l <= k <= 3 && (l, Bits(l, x)) !in g.at
    ensures (k, Bits(k, x)) !in g.at && EntryFor(m, g, k, x) == ZERO
    decreases k
  {
    if l < k {
      NoneBelow(m, g, root, l, k - 1, x);
      if (k, Bits(k, x)) in g.at {
        TableAbove(m, g, root, k, x);
      }
    }
  }

  /** A new zeroed table below level 0 or 1. */
  lemma HangZeroed(m: Tables, g: Geometry, root: nat, l: nat, x: nat, p: nat, n: nat, m': Tables, g': Geometry)
    requires Shape(m, g, root) && l < 3 && Reached(m, g, l, x, p) && !m[p][Index(l, x)].valid && n !in m
    requires m' == Hang(m, p, Index(l, x), TableEntry(n), Zeroed()) && g' == Place(g, (l + 1, Bits(l + 1, x)), n)
    ensures Shape(m', g', root) && SameLookups(m, g, m', g') && Reached(m', g', l + 1, x, n) && AllZero(m'[n])
  {
    BitsStep(l, x);
    HangShape(m, g, root, p, Index(l, x), TableEntry(n), Zeroed(), m', g');
    Unfold(m, g, root);
    forall y: nat
      ensures Lookup(m', g', y) == Lookup(m, g, y)
    {
      HangLookup(m, g, p, Index(l, x), TableEntry(n), Zeroed(), m', g', y);
    }
  }

  function Translated(l: nat, e: Pte): Translation { if e.valid then Leaf(l, e) else Absent }

  /** Exactly the translation of page number x has become t. */
  ghost predicate PageSet(m: Tables, g: Geometry, m': Tables, g': Geometry, x: nat, t: Translation)
  {
    forall k: Key, y: nat {:trigger OpenLookups(k), Lookup(m', g', y)} :: OpenLookups(k) ==> Lookup(m', g', y) == if y == x then t else Lookup(m, g, y)
  }

  /** Exactly the translations of the 2M block of x have become t. */
  ghost predicate BlockSet(m: Tables, g: Geometry, m': Tables, g': Geometry, x: nat, t: Translation)
  {
    forall k: Key, y: nat {:trigger OpenLookups(k), Lookup(m', g', y)} :: OpenLookups(k) ==>
      Lookup(m', g', y) == if Bits(3, y) == Bits(3, x) then t else Lookup(m, g, y)
  }

  /** In the 2M block of x the valid entries of an uncleared page have become translations. */
  ghost predicate JunkShows(m: Tables, g: Geometry, m': Tables, g': Geometry, x: nat, content: seq<Pte>)
    requires |content| == ENTRIES
  {
    forall k: Key, y: nat {:trigger OpenLookups(k), Lookup(m', g', y)} :: OpenLookups(k) ==>
      Lookup(m', g', y) == if Bits(3, y) == Bits(3, x) && content[Index(3, y)].valid then Leaf(3, content[Index(3, y)]) else Lookup(m, g, y)
  }

  /** Writing a 4K entry. */
  lemma SetPage(m: Tables, g: Geometry, root: nat, x: nat, q: nat, e: Pte, m': Tables)
    requires Shape(m, g, root) && Reached(m, g, 3, x, q) && m' == Put(m, q, Index(3, x), e)
    ensures Shape(m', g, root) && PageSet(m, g, m', g, x, Translated(3, e))
    ensures Lookup(m, g, x) == Translated(3, m[q][Index(3, x)])
  {
    BitsStep(3, x);
    PutLeaf3(m, g, root, q, Index(3, x), e, m');
    TableAbove(m, g, root, 3, x);
    Unfold(m, g, root);
    NoBlockAbove(m, g, x);
  }

  /** Writing a 2M entry where no table hangs. */
  lemma SetBlock(m: Tables, g: Geometry, root: nat, x: nat, p: nat, e: Pte, m': Tables)
    requires Shape(m, g, root) && Reached(m, g, 2, x, p) && m' == Put(m, p, Index(2, x), e)
    requires !LeadsOn(2, e) && !LeadsOn(2, m[p][Index(2, x)])
    ensures Shape(m', g, root) && BlockSet(m, g, m', g, x, Translated(2, e)) && EntryFor(m', g, 2, x) == e
  {
    BitsStep(2, x);
    PutLeaf2(m, g, root, p, Index(2, x), e, m');
  }

  /** Writing a 2M entry where a level-3 table hangs, which is taken out of use. */
  lemma ReplaceTable(m: Tables, g: Geometry, root: nat, x: nat, p: nat, q: nat, e: Pte, m': Tables, g': Geometry)
    requires Shape(m, g, root) && Reached(m, g, 2, x, p) && Reached(m, g, 3, x, q) && !LeadsOn(2, e)
    requires LeadsOn(2, m[p][Index(2, x)]) && m[p][Index(2, x)].ppn == q
    requires m' == Cut(m, p, Index(2, x), e, q) && g' == Unplace(g, q)
    ensures Shape(m', g', root) && BlockSet(m, g, m', g', x, Translated(2, e)) && EntryFor(m', g', 2, x) == e
  {
    BitsStep(2, x);
    CutShape(m, g, root, p, Index(2, x), e, q, m', g');
    Unfold(m, g, root);
    forall y: nat
      ensures Lookup(m', g', y) == if Bits(3, y) == Bits(3, x) then Translated(2, e) else Lookup(m, g, y)
    {
      CutBlockLookup(m, g, p, Index(2, x), e, q, m', g', y);
    }
    CutHere(m, g, p, Index(2, x), e, q, m', g', x);
  }

  /** A new level-3 table that is not cleared. */
  lemma HangJunk(m: Tables, g: Geometry, root: nat, x: nat, p: nat, n: nat, content: seq<Pte>, m': Tables, g': Geometry)
    requires Shape(m, g, root) && Reached(m, g, 2, x, p) && !m[p][Index(2, x)].valid && n !in m && |content| == ENTRIES
    requires m' == Hang(m, p, Index(2, x), TableEntry(n), content) && g' == Place(g, (3, Bits(3, x)), n)
    ensures Shape(m', g', root) && JunkShows(m, g, m', g', x, content)
  {
    BitsStep(2, x);
    HangShape(m, g, root, p, Index(2, x), TableEntry(n), content, m', g');
    Unfold(m, g, root);
    forall y: nat
      ensures Lookup(m', g', y)
              == if Bits(3, y) == Bits(3, x) && content[Index(3, y)].valid then Leaf(3, content[Index(3, y)]) else Lookup(m, g, y)
    {
      HangLookup(m, g, p, Index(2, x), TableEntry(n), content, m', g', y);
    }
  }

  /** A block without a valid 2M entry or table is not translated. */
  lemma AbsentBlock(m: Tables, g: Geometry, root: nat, x: nat, y: nat)
    requires Shape(m, g, root) && !EntryFor(m, g, 2, x).valid && Bits(3, y) == Bits(3, x)
    ensures Lookup(m, g, y) == Absent
  {
    Unfold(m, g, root);
    BitsStep(2, x);
    if (3, Bits(3, x)) in g.at {
      TableAbove(m, g, root, 3, x);
    }
    if (2, Bits(2, x)) in g.at {
      assert SlotOk(m, g, g.at[(2, Bits(2, x))], Index(2, x));
    }
  }

  lemma BlockOffset(b: nat, i: nat)
    requires i < ENTRIES
    ensures Bits(3, b * ENTRIES + i) == b && Index(3, b * ENTRIES + i) == i
  {
    var y := b * ENTRIES + i;
    assert Bits(3, y) == Bits(4, y) / ENTRIES;
  }

  /** A valid entry of an uncleared page shows. */
  lemma JunkVisible(m: Tables, g: Geometry, root: nat, m': Tables, g': Geometry, x: nat, content: seq<Pte>, i: nat)
    requires Shape(m, g, root) && StaleHuge(m, g, x) && |content| == ENTRIES && JunkShows(m, g, m', g', x, content)
    requires i < ENTRIES && content[i].valid
    ensures !SameLookups(m, g, m', g')
  {
    var y := Bits(3, x) * ENTRIES + i;
    BlockOffset(Bits(3, x), i);
    AbsentBlock(m, g, root, x, y);
    assert OpenLookups(Key);
    assert Lookup(m', g', y) != Lookup(m, g, y);
  }

  lemma JunkHidden(m: Tables, g: Geometry, m': Tables, g': Geometry, x: nat, content: seq<Pte>)
    requires |content| == ENTRIES && JunkShows(m, g, m', g', x, content) && AllInvalid(content)
    ensures SameLookups(m, g, m', g')
  {
    assert OpenLookups(Key);
    forall y: nat
      ensures Lookup(m', g', y) == Lookup(m, g, y)
    {
      assert !content[Index(3, y)].valid;
    }
  }

  /** A map that fails on a stale huge entry leaves the translations alone exactly if the page it hung in held no valid entry. */
  lemma JunkHarmlessIff(m: Tables, g: Geometry, root: nat, m': Tables, g': Geometry, x: nat, content: seq<Pte>)
    requires Shape(m, g, root) && StaleHuge(m, g, x) && |content| == ENTRIES && JunkShows(m, g, m', g', x, content)
    ensures SameLookups(m, g, m', g') <==> AllInvalid(content)
  {
    if AllInvalid(content) {
      JunkHidden(m, g, m', g', x, content);
    } else {
      var i: nat :| i < ENTRIES && content[i].valid;
      JunkVisible(m, g, root, m', g', x, content, i);
    }
  }

  /** Scan of a level-3 table for an entry that is not zero. */
  method HasEntry(t: seq<Pte>) returns (filled: bool)
    ensures filled <==> !AllZero(t)
  {
    var i := 0;
    while i < |t|
      invariant 0 <= i <= |t| && forall j :: 0 <= j < i ==> t[j] == ZERO
    {
      if t[i] != ZERO {
        return true;
      }
      i := i + 1;
    }
    return false;
  }

  /** A 4K page can be mapped: no 2M entry, valid or stale, and no other page unless remapping is asked for. */
  ghost predicate CanMapPage(m: Tables, g: Geometry, x: nat, ppn: int, f: Flags)
  {
    !EntryFor(m, g, 2, x).huge && (Lookup(m, g, x).Leaf? ==> Lookup(m, g, x).pte.ppn == ppn || f.remap)
  }

  /** A 2M block can be mapped: nothing there, the same page, or a level-3 table whose entries are all zero. */
  ghost predicate CanMapBlock(m: Tables, g: Geometry, x: nat, ppn: int, freeOk: bool)
  {
    var e := EntryFor(m, g, 2, x);
    !e.valid || e.ppn == ppn || (!e.huge && e.ppn in m && AllZero(m[e.ppn]) && freeOk)
  }

  /** What a call of map promises about the tables before and after it. */
  ghost predicate MapOutcome(m: Tables, g: Geometry, spare: seq<Spare>, m': Tables, g': Geometry,
                             ppn: int, vpn: nat, level: int, f: Flags, freeOk: bool, err: Error)
    requires |spare| == 4
  {
    var x := vpn % VPN_LIMIT;
    var asked := (level == 2 || level == 3) && ppn >= 0 && vpn > 0;
    && err in {Success, InParam, Fail}
    && (!asked ==> err == InParam && m' == m && g' == g)
    // success changes exactly the page or block asked for
    && (err == Success && level == 3 ==> PageSet(m, g, m', g', x, Translated(3, Leaf3Entry(ppn, f))))
    && (err == Success && level == 2 ==> BlockSet(m, g, m', g', x, Translated(2, Leaf2Entry(ppn, f))) && EntryFor(m', g', 2, x) == Leaf2Entry(ppn, f))
    // failure changes no translation, except when a 4K page is asked for below a stale huge entry
    && (err != Success && !(level == 3 && StaleHuge(m, g, x)) ==> SameLookups(m, g, m', g'))
    && (asked && level == 3 && StaleHuge(m, g, x) ==>
          && err == Fail
          && (spare[3].Page? ==> |spare[3].content| == ENTRIES && JunkShows(m, g, m', g', x, spare[3].content))
          && (spare[3].NoPage? ==> SameLookups(m, g, m', g')))
    // with pages at hand it fails only for a reason
    && (asked && level == 3 && spare[1].Page? && spare[2].Page? && spare[3].Page? ==> (err == Success <==> CanMapPage(m, g, x, ppn, f)))
    && (asked && level == 2 && spare[1].Page? && spare[2].Page? ==>
          (err == Success <==> vpn % ENTRIES == 0 && ppn % ENTRIES == 0 && CanMapBlock(m, g, x, ppn, freeOk)))
  }

  lemma SameTrans(m: Tables, g: Geometry, m1: Tables, g1: Geometry, m2: Tables, g2: Geometry)
    requires SameLookups(m, g, m1, g1) && SameLookups(m1, g1, m2, g2)
    ensures SameLookups(m, g, m2, g2)
  {
    assert OpenLookups(Key);
    forall x: nat
      ensures Lookup(m2, g2, x) == Lookup(m, g, x)
    {
      assert Lookup(m1, g1, x) == Lookup(m, g, x);
    }
  }

  lemma SameAt(m: Tables, g: Geometry, m': Tables, g': Geometry, x: nat)
    requires SameLookups(m, g, m', g')
    ensures Lookup(m', g', x) == Lookup(m, g, x)
  {
    assert OpenLookups(Key);
  }

  /** A change after tables were added is the same change. */
  lemma SameThenPage(m: Tables, g: Geometry, m1: Tables, g1: Geometry, m2: Tables, g2: Geometry, x: nat, t: Translation)
    requires SameLookups(m, g, m1, g1) && PageSet(m1, g1, m2, g2, x, t)
    ensures PageSet(m, g, m2, g2, x, t)
  {
    forall y: nat
      ensures Lookup(m2, g2, y) == if y == x then t else Lookup(m, g, y)
    {
      SameAt(m, g, m1, g1, y);
      assert OpenLookups(Key);
    }
  }

  lemma SameThenBlock(m: Tables, g: Geometry, m1: Tables, g1: Geometry, m2: Tables, g2: Geometry, x: nat, t: Translation)
    requires SameLookups(m, g, m1, g1) && BlockSet(m1, g1, m2, g2, x, t)
    ensures BlockSet(m, g, m2, g2, x, t)
  {
    forall y: nat
      ensures Lookup(m2, g2, y) == if Bits(3, y) == Bits(3, x) then t else Lookup(m, g, y)
    {
      SameAt(m, g, m1, g1, y);
      assert OpenLookups(Key);
    }
  }

  lemma SameThenJunk(m: Tables, g: Geometry, m1: Tables, g1: Geometry, m2: Tables, g2: Geometry, x: nat, content: seq<Pte>)
    requires |content| == ENTRIES && SameLookups(m, g, m1, g1) && JunkShows(m1, g1, m2, g2, x, content)
    ensures JunkShows(m, g, m2, g2, x, content)
  {
    forall y: nat
      ensures Lookup(m2, g2, y) == if Bits(3, y) == Bits(3, x) && content[Index(3, y)].valid then Leaf(3, content[Index(3, y)]) else Lookup(m, g, y)
    {
      SameAt(m, g, m1, g1, y);
      assert OpenLookups(Key);
    }
  }

  lemma NewSpare(m: Tables, spare: seq<Spare>, freed: seq<nat>, next: nat, i: nat, content: seq<Pte>)
    requires Books(m, spare, freed, next) && i < 4 && spare[i].NoPage? && |content| == ENTRIES
    ensures Books(m, spare[i := Page(next, content)], freed, next + 1)
  {
    assert OpenBooks(Key);
  }

  /** Cutting a page number down to 36 bits keeps its place in the block. */
  lemma SameOffset(vpn: nat)
    ensures vpn % VPN_LIMIT % ENTRIES == vpn % ENTRIES
  {
  }

  datatype Unmapped = Former(ppn: nat) | NotMapped | WalkFailed | BadParam

  class AddressSpace {
    var m: Tables
    var root: nat
    var spare: seq<Spare>
    var freed: seq<nat>
    var next: nat
    ghost var g: Geometry

    ghost predicate Valid()
      reads this
    {
      Shape(m, g, root) && Books(m, spare, freed, next)
    }

    /** An empty root table, as new_vs_root leaves it, and four pages that may be held ready. */
    constructor (rootPage: nat, pages: seq<Spare>, bound: nat)
      requires rootPage < bound && Stocked(map[rootPage := Zeroed()], pages, bound)
      ensures Valid() && root == rootPage && spare == pages && freed == []
      ensures g.at.Keys == {(0, 0)} && forall x: nat :: Lookup(m, g, x) == Absent
    {
      m, root, spare, freed, next := map[rootPage := Zeroed()], rootPage, pages, [], bound;
      g := Geometry(map[(0, 0) := rootPage], map[rootPage := (0, 0)]);
      new;
      Fold(m, g, root);
    }

    /** The table below entry Index(l, x) of page p, allocated and cleared if missing (levels 0 and 1). */
    method NextTable(l: nat, x: nat, p: nat) returns (ok: bool, q: nat)
      requires Valid() && l < 2 && Reached(m, g, l, x, p)
      modifies this`m, this`g, this`spare
      ensures Valid() && SameLookups(old(m), old(g), m, g)
      ensures ok ==> Reached(m, g, l + 1, x, q)
      ensures (l + 1, Bits(l + 1, x)) in old(g.at) ==> ok && m == old(m) && g == old(g) && spare == old(spare)
      ensures ok <==> (l + 1, Bits(l + 1, x)) in old(g.at) || old(spare)[l + 1].Page?
      ensures !ok ==> m == old(m) && g == old(g)
      ensures ok && (l + 1, Bits(l + 1, x)) !in old(g.at) ==> AllZero(m[q])
      ensures l == 0 ==> ((2, Bits(2, x)) in g.at <==> (2, Bits(2, x)) in old(g.at))
      ensures forall j :: 0 <= j < 4 && j != l + 1 ==> spare[j] == old(spare)[j]
    {
      LinkReached(m, g, root, l, x, p);
      var e := m[p][Index(l, x)];
      if e.valid {
        return true, e.ppn;
      }
      if spare[l + 1].NoPage? {
        return false, 0;
      }
      q := spare[l + 1].ppn;
      var m' := Hang(m, p, Index(l, x), TableEntry(q), Zeroed());
      ghost var g' := Place(g, (l + 1, Bits(l + 1, x)), q);
      SpareOk(m, spare, freed, next, l + 1);
      HangZeroed(m, g, root, l, x, p, q, m', g');
      HangSpare(m, spare, freed, next, l + 1, p, Index(l, x), Zeroed());
      m, g, spare := m', g', spare[l + 1 := NoPage];
      assert m == m' && g == g' && root == old(root);
      ok := true;
    }

    /** The level-3 table for x, allocated if missing; an entry with the huge bit is refused, but late. */
    method PageTable(x: nat, p: nat) returns (ok: bool, q: nat)
      requires Valid() && Reached(m, g, 2, x, p)
      modifies this`m, this`g, this`spare
      ensures Valid()
      ensures ok ==> Reached(m, g, 3, x, q) && SameLookups(old(m), old(g), m, g)
      ensures !ok && (!old(StaleHuge(m, g, x)) || old(spare)[3].NoPage?) ==> SameLookups(old(m), old(g), m, g)
      ensures old(StaleHuge(m, g, x)) && old(spare)[3].Page? ==> |old(spare)[3].content| == ENTRIES && JunkShows(old(m), old(g), m, g, x, old(spare)[3].content)
      ensures ok <==> old(!EntryFor(m, g, 2, x).huge && (EntryFor(m, g, 2, x).valid || spare[3].Page?))
      ensures forall j :: 0 <= j < 3 ==> spare[j] == old(spare)[j]
    {
      LinkReached(m, g, root, 2, x, p);
      var e := m[p][Index(2, x)];
      q := e.ppn;
      if !e.valid {
        if spare[3].NoPage? {
          return false, 0;
        }
        q := spare[3].ppn;
        SpareOk(m, spare, freed, next, 3);
        if e.huge {
          HangAsIs(x, p);
        } else {
          HangCleared(x, p);
        }
      }
      ok := !e.huge;
    }

    /** Hangs the third spare page in below level 2, cleared. */
    method HangCleared(x: nat, p: nat)
      requires Valid() && Reached(m, g, 2, x, p) && !m[p][Index(2, x)].valid && spare[3].Page? && spare[3].ppn !in m
      modifies this`m, this`g, this`spare
      ensures Valid() && spare == old(spare)[3 := NoPage]
      ensures Reached(m, g, 3, x, old(spare)[3].ppn) && SameLookups(old(m), old(g), m, g)
    {
      var q := spare[3].ppn;
      var m' := Hang(m, p, Index(2, x), TableEntry(q), Zeroed());
      ghost var g' := Place(g, (3, Bits(3, x)), q);
      HangZeroed(m, g, root, 2, x, p, q, m', g');
      HangSpare(m, spare, freed, next, 3, p, Index(2, x), Zeroed());
      m, g, spare := m', g', spare[3 := NoPage];
      assert m == m' && g == g' && root == old(root);
    }

    /** Hangs it in as it is. */
    method HangAsIs(x: nat, p: nat)
      requires Valid() && Reached(m, g, 2, x, p) && !m[p][Index(2, x)].valid && spare[3].Page? && spare[3].ppn !in m && |spare[3].content| == ENTRIES
      modifies this`m, this`g, this`spare
      ensures Valid() && spare == old(spare)[3 := NoPage]
      ensures JunkShows(old(m), old(g), m, g, x, old(spare)[3].content)
    {
      var q, content := spare[3].ppn, spare[3].content;
      var m' := Hang(m, p, Index(2, x), TableEntry(q), content);
      ghost var g' := Place(g, (3, Bits(3, x)), q);
      HangJunk(m, g, root, x, p, q, content, m', g');
      HangSpare(m, spare, freed, next, 3, p, Index(2, x), content);
      m, g, spare := m', g', spare[3 := NoPage];
      assert m == m' && g == g' && root == old(root);
    }

    /** The last step for a 4K page. */
    method MapPage(x: nat, p: nat, ppn: nat, f: Flags) returns (err: Error)
      requires Valid() && Reached(m, g, 2, x, p)
      modifies this`m, this`g, this`spare
      ensures Valid() && err in {Success, Fail}
      ensures err == Success ==> PageSet(old(m), old(g), m, g, x, Translated(3, Leaf3Entry(ppn, f)))
      ensures err == Fail && (!old(StaleHuge(m, g, x)) || old(spare)[3].NoPage?) ==> SameLookups(old(m), old(g), m, g)
      ensures old(StaleHuge(m, g, x)) && old(spare)[3].Page? ==>
                err == Fail && |old(spare)[3].content| == ENTRIES && JunkShows(old(m), old(g), m, g, x, old(spare)[3].content)
      ensures err == Success <==>
                old(&& !EntryFor(m, g, 2, x).huge && (EntryFor(m, g, 2, x).valid || spare[3].Page?)
                    && (Lookup(m, g, x).Leaf? ==> Lookup(m, g, x).pte.ppn == ppn || f.remap))
      ensures forall j :: 0 <= j < 3 ==> spare[j] == old(spare)[j]
    {
      var ok, q := PageTable(x, p);
      if !ok {
        return Fail;
      }
      ghost var m1, g1 := m, g;
      SameAt(old(m), old(g), m1, g1, x);
      var e := m[q][Index(3, x)];
      var m' := Put(m, q, Index(3, x), Leaf3Entry(ppn, f));
      SetPage(m, g, root, x, q, Leaf3Entry(ppn, f), m');
      if e.valid && e.ppn != ppn && !f.remap {
        return Fail;
      }
      SamePages(m, spare, freed, next, m');
      SameThenPage(old(m), old(g), m1, g1, m', g, x, Translated(3, Leaf3Entry(ppn, f)));
      m := m';
      return Success;
    }

    /** The last step for a 2M block; `freeOk` tells whether the allocator takes a page back. */
    method MapBlock(x: nat, p: nat, ppn: nat, f: Flags, freeOk: bool) returns (err: Error)
      requires Valid() && Reached(m, g, 2, x, p)
      modifies this`m, this`g, this`freed
      ensures Valid() && err in {Success, InParam, Fail}
      ensures err == Success ==> BlockSet(old(m), old(g), m, g, x, Translated(2, Leaf2Entry(ppn, f)))
      ensures err == Success ==> EntryFor(m, g, 2, x) == Leaf2Entry(ppn, f)
      ensures err != Success ==> m == old(m) && g == old(g) && freed == old(freed)
      ensures err == InParam <==> x % ENTRIES != 0 || ppn % ENTRIES != 0
      ensures err == Success <==>
                && x % ENTRIES == 0 && ppn % ENTRIES == 0
                && old(var e := EntryFor(m, g, 2, x);
                       || !e.valid || e.ppn == ppn
                       || (!e.huge && e.ppn in m && AllZero(m[e.ppn]) && freeOk))
      ensures freed == old(freed) || (err == Success && freed == old(freed) + [old(EntryFor(m, g, 2, x)).ppn])
    {
      LinkReached(m, g, root, 2, x, p);
      if x % ENTRIES != 0 || ppn % ENTRIES != 0 {
        return InParam;
      }
      var i := Index(2, x);
      var e := m[p][i];
      var leaf := Leaf2Entry(ppn, f);
      if !LeadsOn(2, e) {
        if e.valid && e.ppn != ppn {
          return Fail;
        }
        var m1 := Put(m, p, i, leaf);
        SetBlock(m, g, root, x, p, leaf, m1);
        SamePages(m, spare, freed, next, m1);
        m := m1;
        assert m == m1 && g == old(g) && root == old(root) && freed == old(freed);
        return Success;
      }
      var q := e.ppn;
      if q != ppn {
        var filled := HasEntry(m[q]);
        if filled || !freeOk {
          return Fail;
        }
      }
      var m' := Cut(m, p, i, leaf, q);
      ghost var g' := Unplace(g, q);
      ReplaceTable(m, g, root, x, p, q, leaf, m', g');
      DropPage(m, spare, freed, next, q, q != ppn, m');
      m, g, freed := m', g', if q != ppn then freed + [q] else freed;
      assert m == m' && g == g' && root == old(root);
      return Success;
    }

    /** The level-2 table for x, with the tables on the way allocated as needed. */
    method DirectoryFor(x: nat) returns (ok: bool, p: nat)
      requires Valid() && x < VPN_LIMIT
      modifies this`m, this`g, this`spare
      ensures Valid() && SameLookups(old(m), old(g), m, g)
      ensures ok ==> Reached(m, g, 2, x, p) && EntryFor(m, g, 2, x) == old(EntryFor(m, g, 2, x))
      ensures (2, Bits(2, x)) in old(g.at) ==> ok && m == old(m) && g == old(g)
      ensures old(spare)[1].Page? && old(spare)[2].Page? ==> ok
      ensures spare[3] == old(spare)[3]
    {
      RootReached(m, g, root, x);
      if (2, Bits(2, x)) in g.at {
        TableAbove(m, g, root, 2, x);
      }
      ok, p := NextTable(0, x, root);
      if ok {
        ghost var m1, g1 := m, g;
        ok, p := NextTable(1, x, p);
        SameTrans(old(m), old(g), m1, g1, m, g);
      }
    }

    /** Pages taken are replaced as far as the allocator has any; what they contain is not known. */
    method Refill()
      requires Valid()
      modifies this`spare, this`next
      ensures Valid()
      ensures forall i :: 0 <= i < 4 && old(spare)[i].Page? ==> spare[i] == old(spare)[i]
    {
      var i := 0;
      while i < 4
        invariant 0 <= i <= 4 && Valid()
        invariant forall j :: 0 <= j < 4 && (i <= j || old(spare)[j].Page?) ==> spare[j] == old(spare)[j]
      {
        var content: seq<Pte> := *;
        if spare[i].NoPage? && |content| == ENTRIES {
          NewSpare(m, spare, freed, next, i, content);
          spare, next := spare[i := Page(next, content)], next + 1;
        }
        i := i + 1;
      }
    }

    /** A 2M block, from the root down. */
    method MapLevel2(ppn: nat, vpn: nat, f: Flags, freeOk: bool) returns (err: Error)
      requires Valid() && vpn > 0
      modifies this`m, this`g, this`spare, this`freed
      ensures Valid() && MapOutcome(old(m), old(g), old(spare), m, g, ppn, vpn, 2, f, freeOk, err)
      ensures spare[3] == old(spare)[3]
    {
      var x := vpn % VPN_LIMIT;
      var ok, p := DirectoryFor(x);
      if !ok {
        return Fail;
      }
      ghost var m1, g1 := m, g;
      err := MapBlock(x, p, ppn, f, freeOk);
      SameOffset(vpn);
      if err == Success {
        SameThenBlock(old(m), old(g), m1, g1, m, g, x, Translated(2, Leaf2Entry(ppn, f)));
      }
    }

    /** A 4K page, from the root down. */
    method MapLevel3(ppn: nat, vpn: nat, f: Flags, freeOk: bool) returns (err: Error)
      requires Valid() && vpn > 0
      modifies this`m, this`g, this`spare
      ensures Valid() && MapOutcome(old(m), old(g), old(spare), m, g, ppn, vpn, 3, f, freeOk, err)
    {
      var x := vpn % VPN_LIMIT;
      var ok, p := DirectoryFor(x);
      if !ok {
        return Fail;
      }
      ghost var m1, g1, third := m, g, spare[3];
      SameAt(old(m), old(g), m1, g1, x);
      err := MapPage(x, p, ppn, f);
      if err == Success {
        SameThenPage(old(m), old(g), m1, g1, m, g, x, Translated(3, Leaf3Entry(ppn, f)));
      } else if third.Page? && StaleHuge(m1, g1, x) {
        SameThenJunk(old(m), old(g), m1, g1, m, g, x, third.content);
      } else {
        SameTrans(old(m), old(g), m1, g1, m, g);
      }
    }

    /** map, up to the point where the page cache is replenished. */
    method MapLocked(ppn: int, vpn: nat, level: int, f: Flags, freeOk: bool) returns (err: Error)
      requires Valid()
      modifies this`m, this`g, this`spare, this`freed
      ensures Valid() && MapOutcome(old(m), old(g), old(spare), m, g, ppn, vpn, level, f, freeOk, err)
      ensures level == 2 ==> spare[3] == old(spare)[3]
    {
      if (level != 2 && level != 3) || ppn < 0 || vpn == 0 {
        return InParam;
      }
      if level == 2 {
        err := MapLevel2(ppn, vpn, f, freeOk);
      } else {
        err := MapLevel3(ppn, vpn, f, freeOk);
      }
    }

    /** map. */
    method Map(ppn: int, vpn: nat, level: int, f: Flags, freeOk: bool) returns (err: Error)
      requires Valid()
      modifies this`m, this`g, this`spare, this`freed, this`next
      ensures Valid() && MapOutcome(old(m), old(g), old(spare), m, g, ppn, vpn, level, f, freeOk, err)
      ensures level == 2 && old(spare)[3].Page? ==> spare[3] == old(spare)[3]
    {
      err := MapLocked(ppn, vpn, level, f, freeOk);
      Refill();
    }

    /** The walk that unmap and have_mapped share: the table that holds the entry deciding x, if the walk gets that far. */
    method Walk(x: nat) returns (level: nat, p: nat)
      requires Valid() && x < VPN_LIMIT
      ensures level in {0, 2, 3}
      ensures level == 0 ==> Lookup(m, g, x) == Absent
      ensures level == 2 ==> Reached(m, g, 2, x, p) && m[p][Index(2, x)].valid && m[p][Index(2, x)].huge && Lookup(m, g, x) == Leaf(2, m[p][Index(2, x)])
      ensures level == 3 ==> Reached(m, g, 3, x, p) && Lookup(m, g, x) == Translated(3, m[p][Index(3, x)])
    {
      RootReached(m, g, root, x);
      p := root;
      level := 0;
      while level < 3
        invariant level <= 3 && Reached(m, g, level, x, p)
      {
        LinkReached(m, g, root, level, x, p);
        var e := m[p][Index(level, x)];
        if !LeadsOn(level, e) {
          NoneBelow(m, g, root, level + 1, 3, x);
          if level < 2 {
            NoneBelow(m, g, root, level + 1, 2, x);
          }
          if e.valid {
            return 2, p;
          }
          return 0, p;
        }
        level, p := level + 1, e.ppn;
      }
      SetPage(m, g, root, x, p, ZERO, Put(m, p, Index(3, x), ZERO));
    }

    /** unmap; `newAddr` is left in the entry, which stays invalid. */
    method Unmap(vpn: nat, newAddr: nat) returns (r: Unmapped)
      requires Valid()
      modifies this`m
      ensures Valid()
      ensures r == BadParam <==> vpn == 0
      ensures vpn > 0 ==>
                var t := old(Lookup(m, g, vpn % VPN_LIMIT));
                && (r.Former? <==> t.Leaf? && (t.level == 2 ==> vpn % ENTRIES == 0))
                && (r.Former? ==> r.ppn == t.pte.ppn)
                && (r.Former? && t.level == 2 ==> BlockSet(old(m), g, m, g, vpn % VPN_LIMIT, Absent))
                && (r.Former? && t.level == 3 ==> PageSet(old(m), g, m, g, vpn % VPN_LIMIT, Absent))
      ensures !r.Former? ==> SameLookups(old(m), g, m, g)
    {
      if vpn == 0 {
        return BadParam;
      }
      var x := vpn % VPN_LIMIT;
      var level, p := Walk(x);
      if level == 0 {
        return WalkFailed;
      }
      var e := m[p][Index(level, x)];
      if level == 2 && x % ENTRIES != 0 {
        return WalkFailed;
      }
      var gone := Pte(newAddr, false, false, 0);
      var m' := Put(m, p, Index(level, x), gone);
      if level == 2 {
        SetBlock(m, g, root, x, p, gone, m');
      } else {
        SetPage(m, g, root, x, p, gone, m');
      }
      SamePages(m, spare, freed, next, m');
      m := m';
      return if e.valid then Former(e.ppn) else NotMapped;
    }

    /** have_mapped; `pinOk` tells whether the allocator grants the extra reference when one is asked for. */
    method HaveMapped(vpn: nat, pin: bool, pinOk: bool) returns (found: bool, level: nat, pte: Pte)
      requires Valid()
      ensures found <==> vpn > 0 && Lookup(m, g, vpn % VPN_LIMIT).Leaf? && (pin ==> pinOk)
      ensures found ==> Lookup(m, g, vpn % VPN_LIMIT) == Leaf(level, pte)
    {
      found, level, pte := false, 0, ZERO;
      if vpn == 0 {
        return;
      }
      var x := vpn % VPN_LIMIT;
      var p;
      level, p := Walk(x);
      if level == 0 || !m[p][Index(level, x)].valid || (pin && !pinOk) {
        return;
      }
      found, pte := true, m[p][Index(level, x)];
    }
  }

  /**
   A failed map can change translations: map a 2M block without VALID, then a 4K page inside it. The second
   call fails, and the page taken for the level-3 table stays in place without having been cleared.
   */
  method FailedMapShowsJunk(content: seq<Pte>, i: nat) returns (vs: AddressSpace, err: Error)
    requires |content| == ENTRIES && i < ENTRIES && content[i].valid
    ensures fresh(vs) && vs.Valid() && err == Fail && Lookup(vs.m, vs.g, ENTRIES + i) == Leaf(3, content[i])
  {
    vs := new AddressSpace(1, [NoPage, Page(2, Zeroed()), Page(3, Zeroed()), Page(4, content)], 5);
    err := vs.Map(ENTRIES, ENTRIES, 2, Flags(false, false, 0, false), true);
    assert Bits(3, ENTRIES) == Bits(4, ENTRIES) / ENTRIES && Bits(3, ENTRIES + i) == Bits(4, ENTRIES + i) / ENTRIES;
    assert Index(3, ENTRIES + i) == i;
    err := vs.Map(7, ENTRIES, 3, Flags(true, false, 0, false), true);
    assert OpenLookups(Key);
  }
}

/** map_handler.c: giving back the user part of the page tables. */
module PageTableSweep {
  import opened PageTableMemory
  import opened PageTables

  /** The level-l ancestor of a position. */
  function Ancestor(y: Position, l: nat): nat
    requires l <= y.0
    decreases y.0
  {
    if y.0 == l then y.1 else Ancestor(Parent(y), l)
  }

  lemma {:induction false} AncestorStep(y: Position, l: nat)
    requires l < y.0
    ensures Ancestor(y, l) == Ancestor(y, l + 1) / ENTRIES
    decreases y.0
  {
    if y.0 > l + 1 {
      AncestorStep(Parent(y), l);
    }
  }

  /** Whoever is above a table is a table. */
  lemma {:induction false} AncestorThere(m: Tables, g: Geometry, root: nat, y: Position, l: nat)
    requires Shape(m, g, root) && y in g.at && l <= y.0
    ensures (l, Ancestor(y, l)) in g.at
    decreases y.0
  {
    if y.0 > l {
      Unfold(m, g, root);
      AncestorThere(m, g, root, Parent(y), l);
    }
  }

  /** Some page number served by the first n slots of the level-l table numbered k is translated. */
  ghost predicate BusySlots(m: Tables, g: Geometry, l: nat, k: nat, n: nat)
  {
    exists x: nat :: k * ENTRIES <= Bits(l + 1, x) < k * ENTRIES + n && Lookup(m, g, x).Leaf?
  }

  /** Some page number served by the level-l table numbered k is translated. */
  ghost predicate Busy(m: Tables, g: Geometry, l: nat, k: nat)
  {
    exists x: nat :: Bits(l, x) == k && Lookup(m, g, x).Leaf?
  }

  lemma BusyAll(m: Tables, g: Geometry, l: nat, k: nat)
    requires l < 4
    ensures BusySlots(m, g, l, k, ENTRIES) <==> Busy(m, g, l, k)
  {
    if BusySlots(m, g, l, k, ENTRIES) {
      var x: nat :| k * ENTRIES <= Bits(l + 1, x) < k * ENTRIES + ENTRIES && Lookup(m, g, x).Leaf?;
      assert Bits(l, x) == k;
    }
    if Busy(m, g, l, k) {
      var x: nat :| Bits(l, x) == k && Lookup(m, g, x).Leaf?;
      assert k * ENTRIES <= Bits(l + 1, x) < k * ENTRIES + ENTRIES;
    }
  }

  lemma BusyStep(m: Tables, g: Geometry, l: nat, k: nat, n: nat)
    ensures BusySlots(m, g, l, k, n + 1) <==> BusySlots(m, g, l, k, n) || Busy(m, g, l + 1, k * ENTRIES + n)
  {
    if BusySlots(m, g, l, k, n + 1) {
      var x: nat :| k * ENTRIES <= Bits(l + 1, x) < k * ENTRIES + n + 1 && Lookup(m, g, x).Leaf?;
      assert k * ENTRIES <= Bits(l + 1, x) < k * ENTRIES + n || Bits(l + 1, x) == k * ENTRIES + n;
    }
    if BusySlots(m, g, l, k, n) {
      var x: nat :| k * ENTRIES <= Bits(l + 1, x) < k * ENTRIES + n && Lookup(m, g, x).Leaf?;
      assert k * ENTRIES <= Bits(l + 1, x) < k * ENTRIES + n + 1;
    }
    if Busy(m, g, l + 1, k * ENTRIES + n) {
      var x: nat :| Bits(l + 1, x) == k * ENTRIES + n && Lookup(m, g, x).Leaf?;
      assert k * ENTRIES <= Bits(l + 1, x) < k * ENTRIES + n + 1;
    }
  }

  lemma BusySame(m: Tables, g: Geometry, m': Tables, g': Geometry, l: nat, k: nat)
    requires SameLookups(m, g, m', g')
    ensures Busy(m', g', l, k) <==> Busy(m, g, l, k)
  {
    assert OpenLookups(Key);
    if Busy(m, g, l, k) {
      var x: nat :| Bits(l, x) == k && Lookup(m, g, x).Leaf?;
      assert Lookup(m', g', x).Leaf?;
    }
    if Busy(m', g', l, k) {
      var x: nat :| Bits(l, x) == k && Lookup(m', g', x).Leaf?;
      assert Lookup(m, g, x).Leaf?;
    }
  }

  /** An entry that leads to no table decides the translations of its slot. */
  lemma LeafDecides(m: Tables, g: Geometry, root: nat, l: nat, k: nat, p: nat, i: nat, x: nat)
    requires Shape(m, g, root) && l <= 3 && (l, k) in g.at && g.at[(l, k)] == p && p in m && i < ENTRIES && i < |m[p]|
    requires !LeadsOn(l, m[p][i]) && Bits(l + 1, x) == k * ENTRIES + i && (l < 3 ==> Child((l, k), i) !in g.at)
    ensures Lookup(m, g, x).Leaf? <==> m[p][i].valid
  {
    BitsStep(l, x);
    assert EntryFor(m, g, l, x) == m[p][i];
    if l < 3 {
      NoneBelow(m, g, root, l + 1, 3, x);
      if l < 2 {
        NoneBelow(m, g, root, l + 1, 2, x);
      }
    } else {
      TableAbove(m, g, root, 3, x);
      Unfold(m, g, root);
      NoBlockAbove(m, g, x);
    }
  }

  lemma NoChild(m: Tables, g: Geometry, root: nat, l: nat, k: nat, p: nat, i: nat)
    requires Shape(m, g, root) && l < 3 && (l, k) in g.at && g.at[(l, k)] == p && p in m && i < ENTRIES && i < |m[p]|
    requires !LeadsOn(l, m[p][i])
    ensures Child((l, k), i) !in g.at
  {
    Unfold(m, g, root);
    assert SlotOk(m, g, p, i);
  }

  lemma BusyLeaf(m: Tables, g: Geometry, root: nat, l: nat, k: nat, p: nat, i: nat)
    requires Shape(m, g, root) && l <= 3 && (l, k) in g.at && g.at[(l, k)] == p && p in m && i < ENTRIES && i < |m[p]|
    requires !LeadsOn(l, m[p][i])
    ensures Busy(m, g, l + 1, k * ENTRIES + i) <==> m[p][i].valid
    ensures l < 3 ==> Child((l, k), i) !in g.at
  {
    if l < 3 {
      NoChild(m, g, root, l, k, p, i);
    }
    var c := k * ENTRIES + i;
    if Busy(m, g, l + 1, c) {
      var x: nat :| Bits(l + 1, x) == c && Lookup(m, g, x).Leaf?;
      LeafDecides(m, g, root, l, k, p, i, x);
    }
    FirstBits(l + 1, c);
    LeafDecides(m, g, root, l, k, p, i, First(l + 1, c));
  }

  /** Every table below the first n slots of the level-l table numbered k is in use for a translation. */
  ghost predicate Tidy(m: Tables, g: Geometry, l: nat, k: nat, n: nat)
  {
    forall y: Position :: y in g.at && y.0 > l && k * ENTRIES <= Ancestor(y, l + 1) < k * ENTRIES + n ==> Busy(m, g, y.0, y.1)
  }

  ghost predicate OpenSwept(k: Key) { true }

  /** What sweeping may change: tables at level l and below, without a translation changing, and only idle tables go. */
  ghost predicate Swept(m: Tables, g: Geometry, freed: seq<nat>, m': Tables, g': Geometry, freed': seq<nat>, l: nat)
  {
    forall k: Key {:trigger OpenSwept(k)} :: OpenSwept(k) ==>
      && SameLookups(m, g, m', g')
      && (forall y :: y in g'.at ==> y in g.at && g'.at[y] == g.at[y])
      && (forall q :: q in m && q in g.pos && g.pos[q].0 < l ==> q in m' && m'[q] == m[q])
      && (forall q :: q in m && q in g.pos && q !in m' ==> !Busy(m, g, g.pos[q].0, g.pos[q].1))
      && (forall q :: q in m' ==> q in m && q in g.pos && q in g'.pos && g'.pos[q] == g.pos[q])
      && (forall q :: q in freed' <==> q in freed || (q in m && q !in m'))
  }

  ghost predicate OpenGone(k: Key) { true }

  /** The tables that went were below the first n slots from slot a on of the level-l table numbered k (folded). */
  ghost predicate Gone(m: Tables, g: Geometry, m': Tables, l: nat, k: nat, a: nat, n: nat)
  {
    forall x: Key {:trigger OpenGone(x)} :: OpenGone(x) ==>
      forall q :: q in m && q in g.pos && q !in m' ==> g.pos[q].0 > l && k * ENTRIES + a <= Ancestor(g.pos[q], l + 1) < k * ENTRIES + a + n
  }

  lemma GoneNothing(m: Tables, g: Geometry, l: nat, k: nat, a: nat, n: nat)
    ensures Gone(m, g, m, l, k, a, n)
  {
  }

  /** What went below a slot went below the table. */
  lemma GoneUp(m: Tables, g: Geometry, m': Tables, l: nat, k: nat, i: nat)
    requires Gone(m, g, m', l + 1, k * ENTRIES + i, 0, ENTRIES)
    ensures Gone(m, g, m', l, k, i, 1)
  {
    assert OpenGone(Key);
    forall q | q in m && q in g.pos && q !in m'
      ensures g.pos[q].0 > l && k * ENTRIES + i <= Ancestor(g.pos[q], l + 1) < k * ENTRIES + i + 1
    {
      AncestorStep(g.pos[q], l + 1);
    }
  }

  lemma GoneTrans(m: Tables, g: Geometry, freed: seq<nat>, m1: Tables, g1: Geometry, freed1: seq<nat>, m2: Tables, j: nat, l: nat, k: nat, a: nat, b: nat, n: nat)
    requires Swept(m, g, freed, m1, g1, freed1, j) && Gone(m, g, m1, l, k, 0, a) && Gone(m1, g1, m2, l, k, b, n)
    ensures Gone(m, g, m2, l, k, 0, if a < b + n then b + n else a)
  {
    assert OpenSwept(Key);
    assert OpenGone(Key);
  }

  lemma GoneTwice(m: Tables, g: Geometry, freed: seq<nat>, m1: Tables, g1: Geometry, freed1: seq<nat>, m2: Tables, j: nat, l: nat, k: nat, i: nat)
    requires Swept(m, g, freed, m1, g1, freed1, j) && Gone(m, g, m1, l, k, i, 1) && Gone(m1, g1, m2, l, k, i, 1)
    ensures Gone(m, g, m2, l, k, i, 1)
  {
    assert OpenSwept(Key);
    assert OpenGone(Key);
  }

  /** Only the table below slot i has gone. */
  lemma GoneOne(m: Tables, g: Geometry, p: nat, i: nat, q: nat, m': Tables, l: nat, k: nat)
    requires p in m && i < |m[p]| && m' == Cut(m, p, i, ZERO, q) && q in g.pos && g.pos[q] == Child((l, k), i) && q != p
    ensures Gone(m, g, m', l, k, i, 1)
  {
  }

  lemma SweptNothing(m: Tables, g: Geometry, root: nat, freed: seq<nat>, l: nat)
    requires Shape(m, g, root)
    ensures Swept(m, g, freed, m, g, freed, l)
  {
    Unfold(m, g, root);
  }

  lemma SweptTrans(m: Tables, g: Geometry, freed: seq<nat>, m1: Tables, g1: Geometry, freed1: seq<nat>,
                   m2: Tables, g2: Geometry, freed2: seq<nat>, l: nat, l1: nat)
    requires Swept(m, g, freed, m1, g1, freed1, l) && Swept(m1, g1, freed1, m2, g2, freed2, l1) && l <= l1
    ensures Swept(m, g, freed, m2, g2, freed2, l)
  {
    assert OpenSwept(Key);
    SameTrans(m, g, m1, g1, m2, g2);
    forall q | q in m && q in g.pos && q !in m2
      ensures !Busy(m, g, g.pos[q].0, g.pos[q].1)
    {
      if q in m1 {
        BusySame(m, g, m1, g1, g.pos[q].0, g.pos[q].1);
      }
    }
  }

  /** Tables only go, and translations stay, so what is tidy stays tidy. */
  lemma TidyStays(m: Tables, g: Geometry, freed: seq<nat>, m': Tables, g': Geometry, freed': seq<nat>, j: nat, l: nat, k: nat, n: nat)
    requires Swept(m, g, freed, m', g', freed', j) && Tidy(m, g, l, k, n)
    ensures Tidy(m', g', l, k, n)
  {
    assert OpenSwept(Key);
    forall y: Position | y in g'.at && y.0 > l && k * ENTRIES <= Ancestor(y, l + 1) < k * ENTRIES + n
      ensures Busy(m', g', y.0, y.1)
    {
      BusySame(m, g, m', g', y.0, y.1);
    }
  }

  /** A slot without a table below it is tidy. */
  lemma TidyNoTable(m: Tables, g: Geometry, root: nat, l: nat, k: nat, n: nat)
    requires Shape(m, g, root) && Tidy(m, g, l, k, n) && Child((l, k), n) !in g.at
    ensures Tidy(m, g, l, k, n + 1)
  {
    forall y: Position | y in g.at && y.0 > l && k * ENTRIES <= Ancestor(y, l + 1) < k * ENTRIES + n + 1
      ensures Busy(m, g, y.0, y.1)
    {
      AncestorThere(m, g, root, y, l + 1);
    }
  }

  /** A busy table that is tidy, and everything below it, is busy. */
  lemma TidyBelow(m: Tables, g: Geometry, l: nat, k: nat, y: Position)
    requires Tidy(m, g, l, k, ENTRIES) && Busy(m, g, l, k) && y in g.at && y.0 >= l && Ancestor(y, l) == k
    ensures Busy(m, g, y.0, y.1)
  {
    if y.0 > l {
      AncestorStep(y, l);
      InTable(Ancestor(y, l + 1), k);
    }
  }

  lemma InTable(a: nat, k: nat)
    requires a / ENTRIES == k
    ensures k * ENTRIES <= a < k * ENTRIES + ENTRIES
  {
  }

  /** A slot with a busy table that is tidy itself is tidy. */
  lemma TidyTable(m: Tables, g: Geometry, l: nat, k: nat, n: nat)
    requires Tidy(m, g, l, k, n) && Tidy(m, g, l + 1, k * ENTRIES + n, ENTRIES) && Busy(m, g, l + 1, k * ENTRIES + n)
    ensures Tidy(m, g, l, k, n + 1)
  {
    forall y: Position | y in g.at && y.0 > l && k * ENTRIES <= Ancestor(y, l + 1) < k * ENTRIES + n + 1
      ensures Busy(m, g, y.0, y.1)
    {
      if Ancestor(y, l + 1) == k * ENTRIES + n {
        TidyBelow(m, g, l + 1, k * ENTRIES + n, y);
      }
    }
  }

  /** Freeing the idle table below slot i. */
  lemma CutIdle(m: Tables, g: Geometry, root: nat, freed: seq<nat>, l: nat, k: nat, p: nat, i: nat, q: nat, m': Tables, g': Geometry)
    requires Shape(m, g, root) && l < 3 && (l, k) in g.at && g.at[(l, k)] == p && p in m && i < ENTRIES && i < |m[p]|
    requires LeadsOn(l, m[p][i]) && m[p][i].ppn == q && q in m && AllInvalid(m[q]) && p in g.pos && q in g.pos && g.pos[q] == Child((l, k), i)
    requires !Busy(m, g, l + 1, k * ENTRIES + i)
    requires m' == Cut(m, p, i, ZERO, q) && g' == Unplace(g, q)
    ensures Shape(m', g', root) && Swept(m, g, freed, m', g', freed + [q], l)
    ensures (l, k) in g'.at && g'.at[(l, k)] == p && Child((l, k), i) !in g'.at && m'[p] == m[p][i := ZERO]
  {
    IdleCuttable(m, g, root, l, k, p, i, q);
    CutShape(m, g, root, p, i, ZERO, q, m', g');
    CutSame(m, g, root, p, i, q, m', g');
    CutSwept(m, g, root, freed, p, i, q, m', g', l);
    AtOther(m, g, root, (l, k), q);
  }

  lemma IdleCuttable(m: Tables, g: Geometry, root: nat, l: nat, k: nat, p: nat, i: nat, q: nat)
    requires Shape(m, g, root) && l < 3 && (l, k) in g.at && g.at[(l, k)] == p && p in m && i < ENTRIES && i < |m[p]|
    requires LeadsOn(l, m[p][i]) && m[p][i].ppn == q && q in m && AllInvalid(m[q]) && p in g.pos && q in g.pos && g.pos[q] == Child((l, k), i)
    ensures Cuttable(m, g, p, i, ZERO, q) && g.pos[p] == (l, k)
  {
    Unfold(m, g, root);
  }

  /** A position keeps its table when another is taken out. */
  lemma AtOther(m: Tables, g: Geometry, root: nat, y: Position, q: nat)
    requires Shape(m, g, root) && y in g.at && q in g.pos && g.at[y] != q
    ensures y in Unplace(g, q).at && Unplace(g, q).at[y] == g.at[y] && g.pos[q] !in Unplace(g, q).at
  {
    Unfold(m, g, root);
  }

  lemma CutSame(m: Tables, g: Geometry, root: nat, p: nat, i: nat, q: nat, m': Tables, g': Geometry)
    requires Shape(m, g, root) && Cuttable(m, g, p, i, ZERO, q) && m' == Cut(m, p, i, ZERO, q) && g' == Unplace(g, q)
    requires AllInvalid(m[q])
    ensures SameLookups(m, g, m', g')
  {
    Unfold(m, g, root);
    forall x: nat
      ensures Lookup(m', g', x) == Lookup(m, g, x)
    {
      CutEmptyLookup(m, g, p, i, q, m', g', x);
    }
  }

  lemma CutSwept(m: Tables, g: Geometry, root: nat, freed: seq<nat>, p: nat, i: nat, q: nat, m': Tables, g': Geometry, l: nat)
    requires Shape(m, g, root) && SameLookups(m, g, m', g') && p in m && i < |m[p]| && q in g.pos && p in g.pos && q in m && p != q
    requires m' == Cut(m, p, i, ZERO, q) && g' == Unplace(g, q) && g.pos[p].0 == l && g.pos[q].0 > l
    requires !Busy(m, g, g.pos[q].0, g.pos[q].1)
    ensures Swept(m, g, freed, m', g', freed + [q], l)
  {
    Unfold(m, g, root);
    assert forall r :: r in freed + [q] <==> r in freed || r == q;
  }

  /** The table at a position, and what slot i of it leads to. */
  lemma TableAt(m: Tables, g: Geometry, root: nat, l: nat, k: nat, i: nat)
    requires Shape(m, g, root) && (l, k) in g.at && i < ENTRIES
    ensures var p := g.at[(l, k)];
            && p in m && |m[p]| == ENTRIES && p in g.pos && g.pos[p] == (l, k) && l <= 3
            && (LeadsOn(l, m[p][i]) ==>
                  && l < 3 && Child((l, k), i) in g.at && g.at[Child((l, k), i)] == m[p][i].ppn
                  && m[p][i].ppn in m && m[p][i].ppn in g.pos && g.pos[m[p][i].ppn] == Child((l, k), i))
            && (!LeadsOn(l, m[p][i]) && l < 3 ==> Child((l, k), i) !in g.at)
  {
    Unfold(m, g, root);
    assert SlotOk(m, g, g.at[(l, k)], i);
  }

  /** Tables above the swept level are as before. */
  lemma SweptAbove(m: Tables, g: Geometry, root: nat, freed: seq<nat>, m': Tables, g': Geometry, freed': seq<nat>, l: nat, k: nat, j: nat)
    requires Swept(m, g, freed, m', g', freed', j) && l < j && Shape(m, g, root) && Shape(m', g', root) && (l, k) in g.at
    ensures (l, k) in g'.at && g'.at[(l, k)] == g.at[(l, k)]
    ensures g.at[(l, k)] in m && g.at[(l, k)] in m' && m'[g.at[(l, k)]] == m[g.at[(l, k)]]
  {
    Unfold(m, g, root);
    Unfold(m', g', root);
    assert OpenSwept(Key);
  }

  lemma SweptSame(m: Tables, g: Geometry, freed: seq<nat>, m': Tables, g': Geometry, freed': seq<nat>, j: nat)
    requires Swept(m, g, freed, m', g', freed', j)
    ensures SameLookups(m, g, m', g')
  {
    assert OpenSwept(Key);
  }

  /** The inner loop: does a level-3 table hold a valid entry? */
  method ScanPage(t: seq<Pte>) returns (busy: bool)
    ensures busy <==> !AllInvalid(t)
  {
    var i := 0;
    while i < |t|
      invariant 0 <= i <= |t| && forall j :: 0 <= j < i ==> !t[j].valid
    {
      if t[i].valid {
        return true;
      }
      i := i + 1;
    }
    return false;
  }

  lemma {:induction false} PageBusy(m: Tables, g: Geometry, root: nat, k: nat, n: nat)
    requires Shape(m, g, root) && (3, k) in g.at && n <= ENTRIES
    ensures g.at[(3, k)] in m && |m[g.at[(3, k)]]| == ENTRIES
    ensures BusySlots(m, g, 3, k, n) <==> exists i :: 0 <= i < n && m[g.at[(3, k)]][i].valid
  {
    TableAt(m, g, root, 3, k, 0);
    if n > 0 {
      PageBusy(m, g, root, k, n - 1);
      BusyStep(m, g, 3, k, n - 1);
      BusyLeaf(m, g, root, 3, k, g.at[(3, k)], n - 1);
    }
  }

  lemma NothingBelowPages(m: Tables, g: Geometry, root: nat, k: nat)
    requires Shape(m, g, root)
    ensures Tidy(m, g, 3, k, ENTRIES)
  {
    Unfold(m, g, root);
    assert forall y: Position :: y in g.at ==> g.at[y] in g.pos && y.0 <= 3;
  }

  /** What the sweep of the table below slot i means for the table above. */
  lemma SweptBelow(m: Tables, g: Geometry, root: nat, freed: seq<nat>, m1: Tables, g1: Geometry, freed1: seq<nat>, l: nat, k: nat, i: nat)
    requires Shape(m, g, root) && Shape(m1, g1, root) && (l, k) in g.at && Tidy(m, g, l, k, i)
    requires Swept(m, g, freed, m1, g1, freed1, l + 1) && Gone(m, g, m1, l + 1, k * ENTRIES + i, 0, ENTRIES)
    ensures (l, k) in g1.at && g1.at[(l, k)] == g.at[(l, k)]
    ensures g.at[(l, k)] in m && g.at[(l, k)] in m1 && m1[g.at[(l, k)]] == m[g.at[(l, k)]]
    ensures Swept(m, g, freed, m1, g1, freed1, l) && Tidy(m1, g1, l, k, i) && Gone(m, g, m1, l, k, i, 1)
  {
    SweptAbove(m, g, root, freed, m1, g1, freed1, l, k, l + 1);
    SweptNothing(m, g, root, freed, l);
    SweptTrans(m, g, freed, m, g, freed, m1, g1, freed1, l, l + 1);
    TidyStays(m, g, freed, m1, g1, freed1, l + 1, l, k, i);
    GoneUp(m, g, m1, l, k, i);
  }

  /** One entry of a table at level 0, 1 or 2. */
  method SweepSlot(vs: AddressSpace, l: nat, p: nat, i: nat, ghost k: nat) returns (busy: bool)
    requires vs.Valid() && l < 3 && i < ENTRIES && (l, k) in vs.g.at && vs.g.at[(l, k)] == p && Tidy(vs.m, vs.g, l, k, i)
    modifies vs`m, vs`g, vs`freed
    ensures vs.Valid() && (l, k) in vs.g.at && vs.g.at[(l, k)] == p && Tidy(vs.m, vs.g, l, k, i + 1)
    ensures Swept(old(vs.m), old(vs.g), old(vs.freed), vs.m, vs.g, vs.freed, l)
    ensures busy <==> Busy(vs.m, vs.g, l + 1, k * ENTRIES + i)
    ensures Gone(old(vs.m), old(vs.g), vs.m, l, k, i, 1)
    ensures p in old(vs.m) && p in vs.m && |vs.m[p]| == ENTRIES && |old(vs.m)[p]| == ENTRIES
    ensures !busy ==> !vs.m[p][i].valid
    ensures forall j :: 0 <= j < ENTRIES && j != i ==> vs.m[p][j] == old(vs.m)[p][j]
    decreases 4 - l, 0
  {
    TableAt(vs.m, vs.g, vs.root, l, k, i);
    var e := vs.m[p][i];
    if !LeadsOn(l, e) {
      SweptNothing(vs.m, vs.g, vs.root, vs.freed, l);
      BusyLeaf(vs.m, vs.g, vs.root, l, k, p, i);
      TidyNoTable(vs.m, vs.g, vs.root, l, k, i);
      GoneNothing(vs.m, vs.g, l, k, i, 1);
      return e.valid;
    }
    ghost var c := k * ENTRIES + i;
    busy := SweepTable(vs, l + 1, e.ppn, c);
    ghost var m1, g1, freed1 := vs.m, vs.g, vs.freed;
    SweptBelow(old(vs.m), old(vs.g), vs.root, old(vs.freed), m1, g1, freed1, l, k, i);
    if busy {
      TidyTable(vs.m, vs.g, l, k, i);
    } else {
      FreeIdle(vs, l, p, i, e.ppn, k);
      GoneTwice(old(vs.m), old(vs.g), old(vs.freed), m1, g1, freed1, vs.m, l, l, k, i);
      SweptTrans(old(vs.m), old(vs.g), old(vs.freed), m1, g1, freed1, vs.m, vs.g, vs.freed, l, l);
    }
  }

  /** Gives back the idle table q below slot i. */
  method FreeIdle(vs: AddressSpace, l: nat, p: nat, i: nat, q: nat, ghost k: nat)
    requires vs.Valid() && l < 3 && i < ENTRIES && (l, k) in vs.g.at && vs.g.at[(l, k)] == p && Tidy(vs.m, vs.g, l, k, i)
    requires p in vs.m && i < |vs.m[p]| && LeadsOn(l, vs.m[p][i]) && vs.m[p][i].ppn == q && q in vs.m && AllInvalid(vs.m[q])
    requires !Busy(vs.m, vs.g, l + 1, k * ENTRIES + i)
    modifies vs`m, vs`g, vs`freed
    ensures vs.Valid() && (l, k) in vs.g.at && vs.g.at[(l, k)] == p && Tidy(vs.m, vs.g, l, k, i + 1)
    ensures Swept(old(vs.m), old(vs.g), old(vs.freed), vs.m, vs.g, vs.freed, l)
    ensures !Busy(vs.m, vs.g, l + 1, k * ENTRIES + i)
    ensures p in vs.m && vs.m[p] == old(vs.m)[p][i := ZERO]
    ensures Gone(old(vs.m), old(vs.g), vs.m, l, k, i, 1)
  {
    TableAt(vs.m, vs.g, vs.root, l, k, i);
    var m' := Cut(vs.m, p, i, ZERO, q);
    ghost var g' := Unplace(vs.g, q);
    CutIdle(vs.m, vs.g, vs.root, vs.freed, l, k, p, i, q, m', g');
    DropPage(vs.m, vs.spare, vs.freed, vs.next, q, true, m');
    TidyStays(vs.m, vs.g, vs.freed, m', g', vs.freed + [q], l, l, k, i);
    SweptSame(vs.m, vs.g, vs.freed, m', g', vs.freed + [q], l);
    BusySame(vs.m, vs.g, m', g', l + 1, k * ENTRIES + i);
    TidyNoTable(m', g', vs.root, l, k, i);
    GoneOne(vs.m, vs.g, p, i, q, m', l, k);
    vs.m, vs.g, vs.freed := m', g', vs.freed + [q];
    assert vs.m == m' && vs.g == g' && vs.freed == old(vs.freed) + [q] && vs.root == old(vs.root);
  }

  /** A table at level 1, 2 or 3. */
  method SweepTable(vs: AddressSpace, l: nat, p: nat, ghost k: nat) returns (busy: bool)
    requires vs.Valid() && 1 <= l <= 3 && (l, k) in vs.g.at && vs.g.at[(l, k)] == p
    modifies vs`m, vs`g, vs`freed
    ensures vs.Valid() && (l, k) in vs.g.at && vs.g.at[(l, k)] == p && Tidy(vs.m, vs.g, l, k, ENTRIES)
    ensures Swept(old(vs.m), old(vs.g), old(vs.freed), vs.m, vs.g, vs.freed, l)
    ensures busy <==> Busy(vs.m, vs.g, l, k)
    ensures Gone(old(vs.m), old(vs.g), vs.m, l, k, 0, ENTRIES)
    ensures p in vs.m && (!busy ==> AllInvalid(vs.m[p]))
    decreases 4 - l, 2
  {
    TableAt(vs.m, vs.g, vs.root, l, k, 0);
    if l == 3 {
      busy := ScanPage(vs.m[p]);
      SweptNothing(vs.m, vs.g, vs.root, vs.freed, l);
      NothingBelowPages(vs.m, vs.g, vs.root, k);
      GoneNothing(vs.m, vs.g, l, k, 0, ENTRIES);
      PageBusy(vs.m, vs.g, vs.root, k, ENTRIES);
    } else {
      busy := SweepEntries(vs, l, p, ENTRIES, k);
    }
    BusyAll(vs.m, vs.g, l, k);
  }

  /** The first n entries of a table at level 0, 1 or 2. */
  method SweepEntries(vs: AddressSpace, l: nat, p: nat, n: nat, ghost k: nat) returns (busy: bool)
    requires vs.Valid() && l < 3 && n <= ENTRIES && (l, k) in vs.g.at && vs.g.at[(l, k)] == p
    modifies vs`m, vs`g, vs`freed
    ensures vs.Valid() && (l, k) in vs.g.at && vs.g.at[(l, k)] == p && Tidy(vs.m, vs.g, l, k, n)
    ensures Swept(old(vs.m), old(vs.g), old(vs.freed), vs.m, vs.g, vs.freed, l)
    ensures busy <==> BusySlots(vs.m, vs.g, l, k, n)
    ensures Gone(old(vs.m), old(vs.g), vs.m, l, k, 0, n)
    ensures p in vs.m && |vs.m[p]| == ENTRIES && (!busy ==> forall i :: 0 <= i < n ==> !vs.m[p][i].valid)
    decreases 4 - l, 1
  {
    TableAt(vs.m, vs.g, vs.root, l, k, 0);
    SweptNothing(vs.m, vs.g, vs.root, vs.freed, l);
    GoneNothing(vs.m, vs.g, l, k, 0, 0);
    busy := false;
    var i := 0;
    while i < n
      invariant 0 <= i <= n && vs.Valid() && vs.root == old(vs.root)
      invariant (l, k) in vs.g.at && vs.g.at[(l, k)] == p && p in vs.m && |vs.m[p]| == ENTRIES
      invariant Tidy(vs.m, vs.g, l, k, i)
      invariant Swept(old(vs.m), old(vs.g), old(vs.freed), vs.m, vs.g, vs.freed, l)
      invariant busy <==> BusySlots(vs.m, vs.g, l, k, i)
      invariant Gone(old(vs.m), old(vs.g), vs.m, l, k, 0, i)
      invariant !busy ==> forall j :: 0 <= j < i ==> !vs.m[p][j].valid
    {
      ghost var m1, g1, freed1 := vs.m, vs.g, vs.freed;
      var b := SweepSlot(vs, l, p, i, k);
      GoneTrans(old(vs.m), old(vs.g), old(vs.freed), m1, g1, freed1, vs.m, l, l, k, i, i, 1);
      SweptTrans(old(vs.m), old(vs.g), old(vs.freed), m1, g1, freed1, vs.m, vs.g, vs.freed, l, l);
      SweptSame(m1, g1, freed1, vs.m, vs.g, vs.freed, l);
      BusySlotsSame(m1, g1, vs.m, vs.g, l, k, i);
      BusyStep(vs.m, vs.g, l, k, i);
      busy := busy || b;
      i := i + 1;
    }
  }

  lemma BusySlotsSame(m: Tables, g: Geometry, m': Tables, g': Geometry, l: nat, k: nat, n: nat)
    requires SameLookups(m, g, m', g')
    ensures BusySlots(m', g', l, k, n) <==> BusySlots(m, g, l, k, n)
  {
    assert OpenLookups(Key);
    if BusySlots(m, g, l, k, n) {
      var x: nat :| k * ENTRIES <= Bits(l + 1, x) < k * ENTRIES + n && Lookup(m, g, x).Leaf?;
      assert Lookup(m', g', x).Leaf?;
    }
    if BusySlots(m', g', l, k, n) {
      var x: nat :| k * ENTRIES <= Bits(l + 1, x) < k * ENTRIES + n && Lookup(m', g', x).Leaf?;
      assert Lookup(m, g, x).Leaf?;
    }
  }

  const USER_LIMIT: nat := VPN_LIMIT / 2

  lemma UserBits(x: nat)
    ensures Bits(1, x) < ENTRIES / 2 <==> x < USER_LIMIT
  {
    assert Bits(3, x) == Bits(4, x) / ENTRIES;
    assert Bits(2, x) == Bits(3, x) / ENTRIES;
    assert Bits(1, x) == Bits(2, x) / ENTRIES;
  }

  /** vspace_free_user_pt: true if no user page is translated. */
  method FreeUserTables(vs: AddressSpace) returns (empty: bool)
    requires vs.Valid()
    modifies vs`m, vs`g, vs`freed
    ensures vs.Valid() && SameLookups(old(vs.m), old(vs.g), vs.m, vs.g)
    ensures empty <==> forall x: nat :: x < USER_LIMIT ==> Lookup(vs.m, vs.g, x) == Absent
    // what is left of the user tables is in use, what was given back was not, was a user table, and was given back once
    ensures forall y: Position :: y in vs.g.at && y.0 > 0 && Ancestor(y, 1) < ENTRIES / 2 ==> Busy(vs.m, vs.g, y.0, y.1)
    ensures forall q :: q in old(vs.m) && q !in vs.m ==> q in old(vs.g.pos) && !Busy(old(vs.m), old(vs.g), old(vs.g.pos[q].0), old(vs.g.pos[q].1))
    ensures forall q :: q in old(vs.m) && q !in vs.m ==> old(vs.g.pos[q].0) > 0 && Ancestor(old(vs.g.pos[q]), 1) < ENTRIES / 2
    ensures forall q :: q in vs.freed <==> q in old(vs.freed) || (q in old(vs.m) && q !in vs.m)
    ensures forall i, j :: 0 <= i < j < |vs.freed| ==> vs.freed[i] != vs.freed[j]
  {
    RootAt(vs.m, vs.g, vs.root);
    var busy := SweepEntries(vs, 0, vs.root, ENTRIES / 2, 0);
    assert OpenSwept(Key) && OpenBooks(Key) && OpenGone(Key);
    AllPlaced(old(vs.m), old(vs.g), vs.root);
    forall x: nat
      ensures Bits(1, x) < ENTRIES / 2 <==> x < USER_LIMIT
    {
      UserBits(x);
    }
    empty := !busy;
  }

  lemma RootAt(m: Tables, g: Geometry, root: nat)
    requires Shape(m, g, root)
    ensures (0, 0) in g.at && g.at[(0, 0)] == root
  {
    Unfold(m, g, root);
  }

  lemma AllPlaced(m: Tables, g: Geometry, root: nat)
    requires Shape(m, g, root)
    ensures forall q :: q in m ==> q in g.pos
  {
    Unfold(m, g, root);
  }
}

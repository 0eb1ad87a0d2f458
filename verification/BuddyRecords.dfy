/** What the buddy allocator's records say about the pages, and what one step changes. */
module BuddyRecords {
  import opened BuddyBlocks

  /** Page p is in the free block of order t. */
  predicate FreeIn(free: set<Block>, p: nat, t: nat) { (t, Num(p, t)) in free }

  ghost predicate IsFree(free: set<Block>, p: nat) { exists t: nat :: FreeIn(free, p, t) }

  /** The block lies in the zone. */
  predicate InZone(n: nat, t: nat, k: nat) { t <= MAX_ORDER && First(t, k) + Pow2(t) <= n }

  /** The block's page frames are consecutive. */
  ghost predicate Contiguous(ppn: seq<nat>, t: nat, k: nat)
  {
    Run(ppn, First(t, k), Pow2(t))
  }

  /** Frames a .. a + n are consecutive. */
  ghost predicate Run(ppn: seq<nat>, a: nat, n: nat)
  {
    a < |ppn| && forall p :: a <= p < a + n && p < |ppn| ==> ppn[p] == ppn[a] + (p - a)
  }

  /** Free blocks lie in the zone, are contiguous, and do not overlap. */
  ghost predicate BlocksOk(ppn: seq<nat>, free: set<Block>)
  {
    && (forall t, k {:trigger (t, k) in free} :: (t, k) in free ==> InZone(|ppn|, t, k) && Contiguous(ppn, t, k))
    && (forall p: nat, s: nat, t: nat :: FreeIn(free, p, s) && FreeIn(free, p, t) ==> s == t)
  }

  /** The first page of a free block shows its order. */
  ghost predicate HeadOrders(order: seq<int>, free: set<Block>)
  {
    forall s, j {:trigger (s, j) in free} :: (s, j) in free ==> First(s, j) < |order| && order[First(s, j)] == s
  }

  /** A page in use shows -1, except in block (t, k). A page inside a free block may show anything. */
  ghost predicate OrdersBut(order: seq<int>, free: set<Block>, t: nat, k: nat)
  {
    HeadOrders(order, free) && forall p: nat :: p < |order| && !IsFree(free, p) && Num(p, t) != k ==> order[p] == -1
  }

  ghost predicate OrdersOk(order: seq<int>, free: set<Block>)
  {
    HeadOrders(order, free) && forall p: nat :: p < |order| && !IsFree(free, p) ==> order[p] == -1
  }

  /** The list of order t holds exactly the first pages of the free blocks of that order. */
  ghost predicate HeadsOk(heads: seq<set<nat>>, free: set<Block>)
  {
    |heads| == MAX_ORDER + 1
    && forall t: nat, i: nat :: t <= MAX_ORDER ==> (i in heads[t] <==> FreeIn(free, i, t) && First(t, Num(i, t)) == i)
  }

  /** The two buddies' page frames are consecutive. */
  predicate Adjacent(ppn: seq<nat>, t: nat, k: nat)
  {
    var a, b := First(t, k), First(t, BuddyOf(k));
    a < |ppn| && b < |ppn| && if a < b then ppn[b] == ppn[a] + Pow2(t) else ppn[a] == ppn[b] + Pow2(t)
  }

  /** No two free blocks could be merged, except possibly block (u, j) with its buddy. */
  ghost predicate MergedBut(ppn: seq<nat>, free: set<Block>, u: nat, j: nat)
  {
    forall t, k :: (t, k) in free && (t, BuddyOf(k)) in free && t < MAX_ORDER && (t, k) != (u, j) && (t, BuddyOf(k)) != (u, j) ==> !Adjacent(ppn, t, k)
  }

  ghost predicate Merged(ppn: seq<nat>, free: set<Block>)
  {
    forall t, k :: (t, k) in free && (t, BuddyOf(k)) in free && t < MAX_ORDER ==> !Adjacent(ppn, t, k)
  }

  /** Block (t, k) is in the zone, contiguous, and none of its pages is in a free block. */
  ghost predicate Loose(ppn: seq<nat>, free: set<Block>, t: nat, k: nat)
  {
    InZone(|ppn|, t, k) && Contiguous(ppn, t, k) && forall p: nat :: Num(p, t) == k ==> !IsFree(free, p)
  }

  lemma BuddyTwice(k: nat)
    ensures BuddyOf(BuddyOf(k)) == k
  {
  }

  /**
   The order field of a candidate buddy can be trusted: a page at the start of the buddy of a loose block that
   shows the same order is a genuine free block, although pages inside larger free blocks keep stale orders.
   */
  lemma BuddyOrderGenuine(ppn: seq<nat>, order: seq<int>, free: set<Block>, t: nat, k: nat)
    requires BlocksOk(ppn, free) && OrdersBut(order, free, t, k) && Loose(ppn, free, t, k)
    requires First(t, BuddyOf(k)) < |order|
    ensures order[First(t, BuddyOf(k))] == t <==> (t, BuddyOf(k)) in free
  {
    var b := First(t, BuddyOf(k));
    FirstIn(t, BuddyOf(k));
    if IsFree(free, b) {
      var s: nat :| FreeIn(free, b, s);
      if s > t {
        // a larger free block would hold the loose block as well
        FirstIn(t, k);
        var a := First(t, k);
        assert Num(a, t + 1) == Num(b, t + 1);
        NumUp(a, b, t + 1, s);
        assert FreeIn(free, a, s);
      } else {
        FirstDown(t, BuddyOf(k), s);
      }
    }
  }

  // ---------------------------------------------------------------------------------------------
  // Merging
  // ---------------------------------------------------------------------------------------------

  lemma MergeLoose(ppn: seq<nat>, free: set<Block>, t: nat, k: nat, free': set<Block>)
    requires BlocksOk(ppn, free) && Loose(ppn, free, t, k) && (t, BuddyOf(k)) in free && t < MAX_ORDER && Adjacent(ppn, t, k)
    requires free' == free - {(t, BuddyOf(k))}
    ensures Loose(ppn, free', t + 1, k / 2)
    ensures forall p: nat :: IsFree(free', p) <==> IsFree(free, p) && Num(p, t) != BuddyOf(k)
  {
    var b := BuddyOf(k);
    MergeFirst(t, k);
    FlipIsBuddy(t, k);
    forall p: nat
      ensures IsFree(free', p) <==> IsFree(free, p) && Num(p, t) != b
    {
      if s: nat :| FreeIn(free, p, s) {
        if Num(p, t) == b {
          assert FreeIn(free, p, t);
        } else {
          assert FreeIn(free', p, s);
        }
      }
      if s: nat :| FreeIn(free', p, s) {
        assert FreeIn(free, p, s);
        assert Num(p, t) == b ==> FreeIn(free, p, t);
      }
    }
    forall p: nat | Num(p, t + 1) == k / 2
      ensures !IsFree(free', p)
    {
      assert Num(p, t) == k || Num(p, t) == b;
    }
    MergeContiguous(ppn, t, k);
  }

  lemma MergeContiguous(ppn: seq<nat>, t: nat, k: nat)
    requires Contiguous(ppn, t, k) && Contiguous(ppn, t, BuddyOf(k)) && Adjacent(ppn, t, k)
    requires InZone(|ppn|, t, k) && InZone(|ppn|, t, BuddyOf(k)) && t < MAX_ORDER
    ensures Contiguous(ppn, t + 1, k / 2) && InZone(|ppn|, t + 1, k / 2)
  {
    MergeFirst(t, k);
    FlipIsBuddy(t, k);
    var lo, n := First(t + 1, k / 2), Pow2(t);
    assert Run(ppn, lo, n) && Run(ppn, lo + n, n) && ppn[lo + n] == ppn[lo] + n && Pow2(t + 1) == 2 * n;
  }

  lemma MergeOrders(order: seq<int>, free: set<Block>, t: nat, k: nat, free': set<Block>)
    requires OrdersBut(order, free, t, k) && (t, BuddyOf(k)) in free && free' == free - {(t, BuddyOf(k))}
    requires forall p: nat :: IsFree(free', p) <==> IsFree(free, p) && Num(p, t) != BuddyOf(k)
    ensures OrdersBut(order, free', t + 1, k / 2)
  {
  }

  lemma RemoveHead(heads: seq<set<nat>>, free: set<Block>, t: nat, k: nat)
    requires HeadsOk(heads, free) && t <= MAX_ORDER && (t, k) in free
    ensures First(t, k) in heads[t] && HeadsOk(heads[t := heads[t] - {First(t, k)}], free - {(t, k)})
  {
    FirstIn(t, k);
    var heads', free' := heads[t := heads[t] - {First(t, k)}], free - {(t, k)};
    forall s: nat, i: nat | s <= MAX_ORDER
      ensures i in heads'[s] <==> FreeIn(free', i, s) && First(s, Num(i, s)) == i
    {
      assert i in heads[s] <==> FreeIn(free, i, s) && First(s, Num(i, s)) == i;
    }
  }

  lemma AddHead(heads: seq<set<nat>>, free: set<Block>, t: nat, k: nat)
    requires HeadsOk(heads, free) && t <= MAX_ORDER && (t, k) !in free
    ensures First(t, k) !in heads[t] && HeadsOk(heads[t := heads[t] + {First(t, k)}], free + {(t, k)})
  {
    FirstIn(t, k);
    var heads', free' := heads[t := heads[t] + {First(t, k)}], free + {(t, k)};
    forall s: nat, i: nat | s <= MAX_ORDER
      ensures i in heads'[s] <==> FreeIn(free', i, s) && First(s, Num(i, s)) == i
    {
      assert i in heads[s] <==> FreeIn(free, i, s) && First(s, Num(i, s)) == i;
    }
  }

  lemma InsertFree(ppn: seq<nat>, free: set<Block>, t: nat, k: nat, free': set<Block>)
    requires BlocksOk(ppn, free) && Loose(ppn, free, t, k) && free' == free + {(t, k)}
    ensures BlocksOk(ppn, free')
    ensures forall p: nat :: IsFree(free', p) <==> IsFree(free, p) || Num(p, t) == k
  {
    forall p: nat
      ensures IsFree(free', p) <==> IsFree(free, p) || Num(p, t) == k
    {
      if s: nat :| FreeIn(free, p, s) {
        assert FreeIn(free', p, s);
      }
      assert Num(p, t) == k ==> FreeIn(free', p, t);
      if s: nat :| FreeIn(free', p, s) {
        assert FreeIn(free, p, s) || Num(p, t) == k;
      }
    }
    forall p: nat, s: nat, u: nat | FreeIn(free', p, s) && FreeIn(free', p, u)
      ensures s == u
    {
      assert forall v: nat :: FreeIn(free', p, v) ==> FreeIn(free, p, v) || (v == t && Num(p, t) == k);
      assert Num(p, t) == k ==> !IsFree(free, p);
      assert !IsFree(free, p) ==> !FreeIn(free, p, s) && !FreeIn(free, p, u);
    }
  }

  lemma InsertOrders(order: seq<int>, free: set<Block>, t: nat, k: nat, free': set<Block>, order': seq<int>)
    requires OrdersBut(order, free, t, k) && (forall p: nat :: Num(p, t) == k ==> !IsFree(free, p))
    requires free' == free + {(t, k)} && First(t, k) < |order| && order' == order[First(t, k) := t]
    requires forall p: nat :: IsFree(free', p) <==> IsFree(free, p) || Num(p, t) == k
    ensures OrdersOk(order', free')
  {
    FirstIn(t, k);
    forall s, j | (s, j) in free'
      ensures First(s, j) < |order'| && order'[First(s, j)] == s
    {
      if (s, j) != (t, k) {
        FirstIn(s, j);
        assert FreeIn(free, First(s, j), s);
      }
    }
  }

  lemma InsertMerged(ppn: seq<nat>, order: seq<int>, free: set<Block>, t: nat, k: nat)
    requires Merged(ppn, free) && OrdersBut(order, free, t, k) && |order| == |ppn|
    requires t == MAX_ORDER || First(t, BuddyOf(k)) >= |ppn| || !Adjacent(ppn, t, k) || order[First(t, BuddyOf(k))] != t
    ensures Merged(ppn, free + {(t, k)})
  {
    forall s, j | (s, j) in free + {(t, k)} && (s, BuddyOf(j)) in free + {(t, k)} && s < MAX_ORDER
      ensures !Adjacent(ppn, s, j)
    {
      BuddyTwice(j);
    }
  }

  // ---------------------------------------------------------------------------------------------
  // Splitting and taking
  // ---------------------------------------------------------------------------------------------

  /** A free block is replaced by its halves. */
  lemma SplitFree(ppn: seq<nat>, free: set<Block>, t: nat, k: nat, free': set<Block>)
    requires BlocksOk(ppn, free) && (t, k) in free && t > 0
    requires free' == free - {(t, k)} + {(t - 1, 2 * k), (t - 1, 2 * k + 1)}
    ensures BlocksOk(ppn, free')
    ensures forall p: nat :: IsFree(free', p) <==> IsFree(free, p)
    ensures (t - 1, 2 * k) !in free && (t - 1, 2 * k + 1) !in free
  {
    Halves(t, k);
    forall p: nat, s: nat | FreeIn(free, p, s)
      ensures Num(p, t) == k ==> s == t
    {
      assert Num(p, t) == k ==> FreeIn(free, p, t);
    }
    HalfAbsent(ppn, free, t, k, 2 * k);
    HalfAbsent(ppn, free, t, k, 2 * k + 1);
    forall p: nat
      ensures IsFree(free', p) <==> IsFree(free, p)
    {
      SplitAt(free, t, k, free', p);
    }
    forall p: nat, s: nat, u: nat | FreeIn(free', p, s) && FreeIn(free', p, u)
      ensures s == u
    {
      SplitAt(free, t, k, free', p);
    }
    SplitContiguous(ppn, t, k);
  }

  /** Half of a free block is not itself a free block. */
  lemma HalfAbsent(ppn: seq<nat>, free: set<Block>, t: nat, k: nat, j: nat)
    requires BlocksOk(ppn, free) && (t, k) in free && t > 0 && j / 2 == k
    ensures (t - 1, j) !in free
  {
    var u: nat := t - 1;
    var p := First(u, j);
    FirstIn(u, j);
    assert Num(p, t) == Num(p, u) / 2;
    assert FreeIn(free, p, t);
    assert FreeIn(free, p, u) <==> (u, j) in free;
  }

  lemma Halves(t: nat, k: nat)
    requires t > 0
    ensures First(t - 1, 2 * k) == First(t, k) && First(t - 1, 2 * k + 1) == First(t, k) + Pow2(t - 1) && Pow2(t) == 2 * Pow2(t - 1)
  {
    FirstNext(t - 1, 2 * k);
  }

  lemma SplitAt(free: set<Block>, t: nat, k: nat, free': set<Block>, p: nat)
    requires (t, k) in free && t > 0 && free' == free - {(t, k)} + {(t - 1, 2 * k), (t - 1, 2 * k + 1)}
    requires forall s: nat :: FreeIn(free, p, s) && Num(p, t) == k ==> s == t
    ensures forall s: nat :: FreeIn(free', p, s) <==> if Num(p, t) == k then s == t - 1 else FreeIn(free, p, s)
    ensures IsFree(free', p) <==> IsFree(free, p)
  {
    forall s: nat
      ensures FreeIn(free', p, s) <==> if Num(p, t) == k then s == t - 1 else FreeIn(free, p, s)
    {
      assert Num(p, t) == Num(p, t - 1) / 2;
      if s == t - 1 {
        assert (s, Num(p, s)) in {(t - 1, 2 * k), (t - 1, 2 * k + 1)} <==> Num(p, t) == k;
      }
      assert FreeIn(free, p, s) <==> (s, Num(p, s)) in free;
      assert FreeIn(free', p, s) <==> (s, Num(p, s)) in free';
    }
    if Num(p, t) == k {
      assert FreeIn(free', p, t - 1) && FreeIn(free, p, t);
    } else {
      if s: nat :| FreeIn(free, p, s) {
        assert FreeIn(free', p, s);
      }
      if s: nat :| FreeIn(free', p, s) {
        assert FreeIn(free, p, s);
      }
    }
  }

  lemma SplitContiguous(ppn: seq<nat>, t: nat, k: nat)
    requires t > 0 && InZone(|ppn|, t, k) && Contiguous(ppn, t, k)
    ensures InZone(|ppn|, t - 1, 2 * k) && Contiguous(ppn, t - 1, 2 * k)
    ensures InZone(|ppn|, t - 1, 2 * k + 1) && Contiguous(ppn, t - 1, 2 * k + 1)
  {
    Halves(t, k);
  }

  /** The halves of a free block start at pages where no other free block starts. */
  lemma SplitHeads(ppn: seq<nat>, free: set<Block>, t: nat, k: nat, s: nat, j: nat)
    requires BlocksOk(ppn, free) && (t, k) in free && t > 0 && (s, j) in free && (s, j) != (t, k)
    ensures First(s, j) != First(t - 1, 2 * k) && First(s, j) != First(t - 1, 2 * k + 1)
  {
    HalfHead(ppn, free, t, k, 2 * k, s, j);
    HalfHead(ppn, free, t, k, 2 * k + 1, s, j);
  }

  /** No other free block starts where half of a free block does. */
  lemma HalfHead(ppn: seq<nat>, free: set<Block>, t: nat, k: nat, h: nat, s: nat, j: nat)
    requires BlocksOk(ppn, free) && (t, k) in free && t > 0 && h / 2 == k && (s, j) in free && (s, j) != (t, k)
    ensures First(s, j) != First(t - 1, h)
  {
    var p := First(t - 1, h);
    FirstIn(t - 1, h);
    assert Num(p, t) == Num(p, t - 1) / 2;
    HeadAlone(ppn, free, s, j, p, t);
  }

  lemma SplitHeadOrders(order: seq<int>, free: set<Block>, t: nat, k: nat, free': set<Block>, a: nat, b: nat, order': seq<int>)
    requires HeadOrders(order, free) && (t, k) in free && t > 0
    requires free' == free - {(t, k)} + {(t - 1, 2 * k), (t - 1, 2 * k + 1)}
    requires a == First(t - 1, 2 * k) < |order| && b == First(t - 1, 2 * k + 1) < |order|
    requires forall s, j {:trigger (s, j) in free} :: (s, j) in free && (s, j) != (t, k) ==> First(s, j) != a && First(s, j) != b
    requires order' == order[a := t - 1][b := t - 1]
    ensures HeadOrders(order', free')
  {
  }

  lemma SplitOrders(order: seq<int>, free: set<Block>, t: nat, k: nat, free': set<Block>, a: nat, b: nat, order': seq<int>)
    requires OrdersOk(order, free) && (t, k) in free && t > 0
    requires free' == free - {(t, k)} + {(t - 1, 2 * k), (t - 1, 2 * k + 1)}
    requires forall p: nat :: IsFree(free', p) <==> IsFree(free, p)
    requires a == First(t - 1, 2 * k) < |order| && b == First(t - 1, 2 * k + 1) < |order|
    requires IsFree(free, a) && IsFree(free, b)
    requires forall s, j {:trigger (s, j) in free} :: (s, j) in free && (s, j) != (t, k) ==> First(s, j) != a && First(s, j) != b
    requires order' == order[a := t - 1][b := t - 1]
    ensures OrdersOk(order', free')
  {
    SplitHeadOrders(order, free, t, k, free', a, b, order');
  }

  /** Two free blocks do not share a page. */
  lemma HeadAlone(ppn: seq<nat>, free: set<Block>, s: nat, j: nat, p: nat, t: nat)
    requires BlocksOk(ppn, free) && FreeIn(free, p, t)
    ensures (s, j) in free && First(s, j) == p ==> (s, j) == (t, Num(p, t))
  {
    FirstIn(s, j);
    assert (s, j) in free && First(s, j) == p ==> FreeIn(free, p, s);
  }

  lemma SplitMerged(ppn: seq<nat>, free: set<Block>, t: nat, k: nat, free': set<Block>)
    requires MergedBut(ppn, free, t, k) && (t, k) in free && t > 0
    requires free' == free - {(t, k)} + {(t - 1, 2 * k), (t - 1, 2 * k + 1)}
    requires (t - 1, 2 * k) !in free && (t - 1, 2 * k + 1) !in free
    ensures MergedBut(ppn, free', t - 1, 2 * k)
  {
    forall s, i | (s, i) in free' && (s, BuddyOf(i)) in free' && s < MAX_ORDER && (s, i) != (t - 1, 2 * k) && (s, BuddyOf(i)) != (t - 1, 2 * k)
      ensures !Adjacent(ppn, s, i)
    {
      BuddyTwice(i);
      assert BuddyOf(2 * k) == 2 * k + 1 && BuddyOf(2 * k + 1) == 2 * k;
    }
  }

  /** A free block is taken. */
  lemma TakeFree(ppn: seq<nat>, free: set<Block>, t: nat, k: nat, free': set<Block>)
    requires BlocksOk(ppn, free) && (t, k) in free && free' == free - {(t, k)}
    ensures BlocksOk(ppn, free')
    ensures forall p: nat :: IsFree(free', p) <==> IsFree(free, p) && Num(p, t) != k
  {
    forall p: nat, s: nat, u: nat | FreeIn(free', p, s) && FreeIn(free', p, u)
      ensures s == u
    {
      assert FreeIn(free, p, s) && FreeIn(free, p, u);
    }
    forall p: nat
      ensures IsFree(free', p) <==> IsFree(free, p) && Num(p, t) != k
    {
      if s: nat :| FreeIn(free, p, s) {
        assert Num(p, t) == k ==> FreeIn(free, p, t);
        assert Num(p, t) != k ==> FreeIn(free', p, s);
      }
      if s: nat :| FreeIn(free', p, s) {
        assert FreeIn(free, p, s);
        assert Num(p, t) == k ==> FreeIn(free, p, t);
      }
    }
  }
}

/** buddy_pmm.c: allocating and freeing pages of one zone. */
module BuddyAllocator {
  import opened BuddyBlocks
  import opened BuddyRecords

  datatype Result = Pages(first: nat) | NoMemory | Invalid

  /** Pages in free blocks of orders below n, by the bucket counters. */
  function Sum(count: seq<int>, n: nat): int
    requires n <= |count|
  {
    if n == 0 then 0 else Sum(count, n - 1) + count[n - 1] * Pow2(n - 1)
  }

  function Total(count: seq<int>): int { Sum(count, |count|) }

  lemma {:induction false} SumUpdate(count: seq<int>, t: nat, v: int, n: nat)
    requires t < |count| && n <= |count|
    ensures Sum(count[t := v], n) == Sum(count, n) + if t < n then (v - count[t]) * Pow2(t) else 0
  {
    if n > 0 {
      SumUpdate(count, t, v, n - 1);
      assert (v - count[t]) * Pow2(t) == v * Pow2(t) - count[t] * Pow2(t);
    }
  }

  /** Each bucket counter is the length of its list. */
  ghost predicate CountsOk(heads: seq<set<nat>>, count: seq<int>)
  {
    |heads| == MAX_ORDER + 1 && |count| == MAX_ORDER + 1 && forall t :: 0 <= t <= MAX_ORDER ==> count[t] == |heads[t]|
  }

  /** What the allocator's records are, as far as they speak about free blocks. */
  datatype Records = Records(order: seq<int>, heads: seq<set<nat>>, count: seq<int>)

  datatype Key = Key
  ghost predicate OpenLists(k: Key) { true }
  ghost predicate OpenSteady(k: Key) { true }
  ghost predicate OpenFreeing(k: Key) { true }
  ghost predicate OpenSplitting(k: Key) { true }

  predicate Shaped(ppn: seq<nat>, r: Records)
  {
    |r.order| == |ppn| && |r.heads| == MAX_ORDER + 1 && |r.count| == MAX_ORDER + 1
  }

  /** Lists and counters agree with the free blocks (folded). */
  ghost predicate ListsOk(ppn: seq<nat>, r: Records, free: set<Block>)
  {
    Shaped(ppn, r) && forall k: Key {:trigger OpenLists(k)} :: OpenLists(k) ==> BlocksOk(ppn, free) && HeadsOk(r.heads, free) && CountsOk(r.heads, r.count)
  }

  /** Between operations: lists, orders and counters agree with the free blocks, and no two of these could be merged (folded). */
  ghost predicate Steady(ppn: seq<nat>, r: Records, free: set<Block>)
  {
    Shaped(ppn, r)
    && forall k: Key {:trigger OpenSteady(k)} :: OpenSteady(k) ==> ListsOk(ppn, r, free) && OrdersOk(r.order, free) && Merged(ppn, free)
  }

  /** While block (t, k) is being freed (folded). */
  ghost predicate Freeing(ppn: seq<nat>, r: Records, free: set<Block>, t: nat, k: nat)
  {
    Shaped(ppn, r)
    && forall x: Key {:trigger OpenFreeing(x)} :: OpenFreeing(x) ==>
         ListsOk(ppn, r, free) && OrdersBut(r.order, free, t, k) && Merged(ppn, free) && Loose(ppn, free, t, k)
  }

  /** While free block (t, k) is being split (folded). */
  ghost predicate Splitting(ppn: seq<nat>, r: Records, free: set<Block>, t: nat, k: nat)
  {
    Shaped(ppn, r)
    && forall x: Key {:trigger OpenSplitting(x)} :: OpenSplitting(x) ==>
         ListsOk(ppn, r, free) && OrdersOk(r.order, free) && MergedBut(ppn, free, t, k) && (t, k) in free
  }

  function Without(r: Records, t: nat, i: nat): Records
    requires t < |r.heads| && t < |r.count|
  {
    r.(heads := r.heads[t := r.heads[t] - {i}], count := r.count[t := r.count[t] - 1])
  }

  function With(r: Records, t: nat, i: nat): Records
    requires t < |r.heads| && t < |r.count|
  {
    r.(heads := r.heads[t := r.heads[t] + {i}], count := r.count[t := r.count[t] + 1])
  }

  lemma CountsWithout(r: Records, t: nat, i: nat)
    requires CountsOk(r.heads, r.count) && t <= MAX_ORDER && i in r.heads[t]
    ensures CountsOk(Without(r, t, i).heads, Without(r, t, i).count) && Total(Without(r, t, i).count) == Total(r.count) - Pow2(t)
  {
    SumUpdate(r.count, t, r.count[t] - 1, |r.count|);
  }

  lemma CountsWith(r: Records, t: nat, i: nat)
    requires CountsOk(r.heads, r.count) && t <= MAX_ORDER && i !in r.heads[t]
    ensures CountsOk(With(r, t, i).heads, With(r, t, i).count) && Total(With(r, t, i).count) == Total(r.count) + Pow2(t)
  {
    SumUpdate(r.count, t, r.count[t] + 1, |r.count|);
  }

  lemma ListsWithout(ppn: seq<nat>, r: Records, free: set<Block>, t: nat, k: nat)
    requires ListsOk(ppn, r, free) && (t, k) in free && t <= MAX_ORDER
    ensures ListsOk(ppn, Without(r, t, First(t, k)), free - {(t, k)}) && Total(Without(r, t, First(t, k)).count) == Total(r.count) - Pow2(t)
  {
    assert OpenLists(Key);
    TakeFree(ppn, free, t, k, free - {(t, k)});
    RemoveHead(r.heads, free, t, k);
    CountsWithout(r, t, First(t, k));
  }

  lemma ListsWith(ppn: seq<nat>, r: Records, free: set<Block>, t: nat, k: nat)
    requires ListsOk(ppn, r, free) && (t, k) !in free && t <= MAX_ORDER && BlocksOk(ppn, free + {(t, k)})
    ensures ListsOk(ppn, With(r, t, First(t, k)), free + {(t, k)}) && Total(With(r, t, First(t, k)).count) == Total(r.count) + Pow2(t)
  {
    assert OpenLists(Key);
    AddHead(r.heads, free, t, k);
    CountsWith(r, t, First(t, k));
  }

  lemma BlocksOf(ppn: seq<nat>, r: Records, free: set<Block>)
    requires ListsOk(ppn, r, free)
    ensures BlocksOk(ppn, free)
  {
    assert OpenLists(Key);
  }

  lemma NotThere(free: set<Block>, t: nat, k: nat)
    requires forall p: nat :: Num(p, t) == k ==> !IsFree(free, p)
    ensures (t, k) !in free
  {
    FirstIn(t, k);
    assert (t, k) in free ==> FreeIn(free, First(t, k), t);
  }

  // ---------------------------------------------------------------------------------------------
  // The steps of freeing
  // ---------------------------------------------------------------------------------------------

  /** The pages of free', with block (t, k), are those of free with page p. */
  ghost predicate Gains(free: set<Block>, free': set<Block>, t: nat, k: nat, p: nat)
  {
    forall q: nat :: IsFree(free', q) || Num(q, t) == k <==> IsFree(free, q) || q == p
  }

  lemma StartFreeing(ppn: seq<nat>, r: Records, free: set<Block>, p: nat)
    requires Steady(ppn, r, free) && p < |ppn| && !IsFree(free, p)
    ensures Freeing(ppn, r, free, 0, p) && Gains(free, free, 0, p, p)
  {
    assert OpenSteady(Key) && OpenLists(Key);
  }

  /** What the checks on the candidate buddy mean. */
  lemma BuddyChecked(ppn: seq<nat>, r: Records, free: set<Block>, t: nat, k: nat)
    requires Freeing(ppn, r, free, t, k)
    ensures t <= MAX_ORDER && First(t, k) < |ppn|
    ensures First(t, BuddyOf(k)) < |ppn| ==> (r.order[First(t, BuddyOf(k))] == t <==> (t, BuddyOf(k)) in free)
  {
    assert OpenFreeing(Key) && OpenLists(Key);
    if First(t, BuddyOf(k)) < |ppn| {
      BuddyOrderGenuine(ppn, r.order, free, t, k);
    }
  }

  lemma MergeStep(ppn: seq<nat>, r: Records, free: set<Block>, t: nat, k: nat, was: set<Block>, p: nat)
    requires Freeing(ppn, r, free, t, k) && t < MAX_ORDER && (t, BuddyOf(k)) in free && Adjacent(ppn, t, k) && Gains(was, free, t, k, p)
    ensures var free', r' := free - {(t, BuddyOf(k))}, Without(r, t, First(t, BuddyOf(k)));
            && Freeing(ppn, r', free', t + 1, k / 2) && Gains(was, free', t + 1, k / 2, p)
            && Total(r'.count) == Total(r.count) - Pow2(t)
  {
    assert OpenFreeing(Key);
    BlocksOf(ppn, r, free);
    var free' := free - {(t, BuddyOf(k))};
    ListsWithout(ppn, r, free, t, BuddyOf(k));
    MergeLoose(ppn, free, t, k, free');
    MergeOrders(r.order, free, t, k, free');
    MergeGains(was, free, t, k, p, free');
  }

  lemma MergeGains(was: set<Block>, free: set<Block>, t: nat, k: nat, p: nat, free': set<Block>)
    requires Gains(was, free, t, k, p) && (t, BuddyOf(k)) in free
    requires forall q: nat :: IsFree(free', q) <==> IsFree(free, q) && Num(q, t) != BuddyOf(k)
    ensures Gains(was, free', t + 1, k / 2, p)
  {
    forall q: nat
      ensures IsFree(free', q) || Num(q, t + 1) == k / 2 <==> IsFree(was, q) || q == p
    {
      assert Num(q, t + 1) == k / 2 <==> Num(q, t) == k || Num(q, t) == BuddyOf(k);
      assert Num(q, t) == BuddyOf(k) ==> FreeIn(free, q, t);
    }
  }

  /** Block (t, k) goes on its list when it has no free buddy to merge with. */
  lemma FinishFreeing(ppn: seq<nat>, r: Records, free: set<Block>, t: nat, k: nat, was: set<Block>, p: nat)
    requires Freeing(ppn, r, free, t, k) && Gains(was, free, t, k, p) && t <= MAX_ORDER && First(t, k) < |ppn|
    requires t == MAX_ORDER || First(t, BuddyOf(k)) >= |ppn| || !Adjacent(ppn, t, k) || r.order[First(t, BuddyOf(k))] != t
    ensures var free', r' := free + {(t, k)}, With(r, t, First(t, k)).(order := r.order[First(t, k) := t]);
            && Steady(ppn, r', free') && Total(r'.count) == Total(r.count) + Pow2(t)
            && forall q: nat :: IsFree(free', q) <==> IsFree(was, q) || q == p
  {
    assert OpenFreeing(Key);
    BlocksOf(ppn, r, free);
    var free', r' := free + {(t, k)}, With(r, t, First(t, k)).(order := r.order[First(t, k) := t]);
    NotThere(free, t, k);
    InsertFree(ppn, free, t, k, free');
    ListsWith(ppn, r, free, t, k);
    InsertMerged(ppn, r.order, free, t, k);
    InsertOrders(r.order, free, t, k, free', r'.order);
  }

  // ---------------------------------------------------------------------------------------------
  // Freeing one page, whatever the records show
  // ---------------------------------------------------------------------------------------------

  /** index ^ (1 << t). */
  function Flip(i: nat, t: nat): int { if Num(i, t) % 2 == 0 then i + Pow2(t) else i - Pow2(t) }

  /** The block of order t at page i is taken for a buddy's half: the other half is in the zone, adjacent, and shows order t. */
  predicate CanMerge(ppn: seq<nat>, r: Records, t: nat, i: nat)
    requires Shaped(ppn, r)
  {
    t < MAX_ORDER && 0 <= Flip(i, t) < |ppn| && Adjacent(ppn, t, Num(i, t)) && r.order[Flip(i, t)] == t
  }

  /** The records once the block of order t at page i has been freed and merged upwards. */
  function FreeRecords(ppn: seq<nat>, r: Records, t: nat, i: nat): (r': Records)
    requires Shaped(ppn, r) && i < |ppn| && t <= MAX_ORDER
    ensures Shaped(ppn, r')
    decreases MAX_ORDER - t
  {
    if CanMerge(ppn, r, t, i) then
      FreeRecords(ppn, Without(r, t, Flip(i, t)), t + 1, if i < Flip(i, t) then i else Flip(i, t))
    else With(r, t, i).(order := r.order[i := t])
  }

  /** The same by the numbers of the blocks. */
  predicate Merges(ppn: seq<nat>, r: Records, t: nat, k: nat)
    requires Shaped(ppn, r)
  {
    t < MAX_ORDER && First(t, BuddyOf(k)) < |ppn| && Adjacent(ppn, t, k) && r.order[First(t, BuddyOf(k))] == t
  }

  lemma OneMerge(ppn: seq<nat>, r: Records, t: nat, k: nat)
    requires Shaped(ppn, r) && t <= MAX_ORDER && First(t, k) < |ppn|
    ensures Merges(ppn, r, t, k) ==>
              && First(t + 1, k / 2) < |ppn|
              && FreeRecords(ppn, r, t, First(t, k)) == FreeRecords(ppn, Without(r, t, First(t, BuddyOf(k))), t + 1, First(t + 1, k / 2))
    ensures !Merges(ppn, r, t, k) ==> FreeRecords(ppn, r, t, First(t, k)) == With(r, t, First(t, k)).(order := r.order[First(t, k) := t])
  {
    MergesIs(ppn, r, t, k);
    LowerFirst(t, k);
  }

  lemma MergesIs(ppn: seq<nat>, r: Records, t: nat, k: nat)
    requires Shaped(ppn, r) && First(t, k) < |ppn|
    ensures CanMerge(ppn, r, t, First(t, k)) <==> Merges(ppn, r, t, k)
    ensures Flip(First(t, k), t) == First(t, BuddyOf(k))
  {
    FlipIsBuddy(t, k);
    FirstIn(t, k);
  }

  /** The lower of two buddies starts where the merged block does. */
  lemma LowerFirst(t: nat, k: nat)
    ensures First(t + 1, k / 2) == if First(t, k) < First(t, BuddyOf(k)) then First(t, k) else First(t, BuddyOf(k))
  {
    FlipIsBuddy(t, k);
    MergeFirst(t, k);
  }

  /** Freeing a page in use adds it to the free pages and keeps the records in order. */
  lemma {:induction false} FreeGains(ppn: seq<nat>, r: Records, free: set<Block>, t: nat, k: nat, was: set<Block>, p: nat) returns (free': set<Block>)
    requires Freeing(ppn, r, free, t, k) && Gains(was, free, t, k, p) && t <= MAX_ORDER && First(t, k) < |ppn|
    ensures Steady(ppn, FreeRecords(ppn, r, t, First(t, k)), free')
    ensures Total(FreeRecords(ppn, r, t, First(t, k)).count) == Total(r.count) + Pow2(t)
    ensures forall q: nat :: IsFree(free', q) <==> IsFree(was, q) || q == p
    decreases MAX_ORDER - t
  {
    BuddyChecked(ppn, r, free, t, k);
    OneMerge(ppn, r, t, k);
    if Merges(ppn, r, t, k) {
      MergeStep(ppn, r, free, t, k, was, p);
      free' := FreeGains(ppn, Without(r, t, First(t, BuddyOf(k))), free - {(t, BuddyOf(k))}, t + 1, k / 2, was, p);
    } else {
      FinishFreeing(ppn, r, free, t, k, was, p);
      free' := free + {(t, k)};
    }
  }

  /** Page p is in two listed blocks, or in one that is listed once more than its list is long. */
  ghost predicate Clash(r: Records, p: nat, s: nat, u: nat)
  {
    && s <= MAX_ORDER && u <= MAX_ORDER && |r.heads| == MAX_ORDER + 1 && |r.count| == MAX_ORDER + 1
    && First(s, Num(p, s)) in r.heads[s] && First(u, Num(p, u)) in r.heads[u] && (s != u || r.count[u] != |r.heads[u]|)
  }

  /** Freeing page p from order t upwards while it is in a listed block of order u. */
  lemma {:induction false} FreeClashes(ppn: seq<nat>, r: Records, t: nat, p: nat, u: nat) returns (s: nat)
    requires Shaped(ppn, r) && t <= MAX_ORDER && u <= MAX_ORDER && p < |ppn| && First(t, Num(p, t)) < |ppn|
    requires First(u, Num(p, u)) in r.heads[u] && (t <= u ==> r.count[u] == |r.heads[u]|)
    ensures Clash(FreeRecords(ppn, r, t, First(t, Num(p, t))), p, s, u)
    decreases MAX_ORDER - t
  {
    var k := Num(p, t);
    OneMerge(ppn, r, t, k);
    if Merges(ppn, r, t, k) {
      FirstIn(t, k);
      FirstIn(t, BuddyOf(k));
      assert Num(p, t + 1) == k / 2;
      s := FreeClashes(ppn, Without(r, t, First(t, BuddyOf(k))), t + 1, p, u);
    } else {
      s := t;
      assert u == t ==> r.heads[t] + {First(t, k)} == r.heads[t];
    }
  }

  /** With such records no set of free blocks is in order. */
  lemma ClashUnsteady(ppn: seq<nat>, r: Records, p: nat, s: nat, u: nat, free: set<Block>)
    requires Clash(r, p, s, u)
    ensures !Steady(ppn, r, free)
  {
    assert OpenSteady(Key) && OpenLists(Key);
    FirstIn(s, Num(p, s));
    FirstIn(u, Num(p, u));
    assert Steady(ppn, r, free) ==> FreeIn(free, p, s) && FreeIn(free, p, u);
  }

  /** Freeing a free page whose order does not show it leaves records that no free blocks agree with. */
  lemma FreeTwice(ppn: seq<nat>, r: Records, free: set<Block>, p: nat, free': set<Block>)
    requires Steady(ppn, r, free) && p < |ppn| && IsFree(free, p)
    ensures !Steady(ppn, FreeRecords(ppn, r, 0, p), free')
  {
    var u := ListedAt(ppn, r, free, p);
    var s := FreeClashes(ppn, r, 0, p, u);
    ClashUnsteady(ppn, FreeRecords(ppn, r, 0, p), p, s, u, free');
  }

  lemma ListedAt(ppn: seq<nat>, r: Records, free: set<Block>, p: nat) returns (u: nat)
    requires Steady(ppn, r, free) && IsFree(free, p)
    ensures u <= MAX_ORDER && First(u, Num(p, u)) in r.heads[u] && r.count[u] == |r.heads[u]|
  {
    assert OpenSteady(Key) && OpenLists(Key);
    u :| FreeIn(free, p, u);
    FirstIn(u, Num(p, u));
    assert FreeIn(free, First(u, Num(p, u)), u);
  }

  /** The free blocks after page p has been freed, if there are any. */
  lemma FreedBlocks(ppn: seq<nat>, r: Records, free: set<Block>, p: nat) returns (free': set<Block>)
    requires Shaped(ppn, r) && p < |ppn|
    ensures Steady(ppn, r, free) && !IsFree(free, p) ==>
              && Steady(ppn, FreeRecords(ppn, r, 0, p), free') && Total(FreeRecords(ppn, r, 0, p).count) == Total(r.count) + 1
              && forall q: nat :: IsFree(free', q) <==> IsFree(free, q) || q == p
    ensures Steady(ppn, r, free) && IsFree(free, p) ==> forall f :: !Steady(ppn, FreeRecords(ppn, r, 0, p), f)
  {
    free' := free;
    if Steady(ppn, r, free) && !IsFree(free, p) {
      StartFreeing(ppn, r, free, p);
      free' := FreeGains(ppn, r, free, 0, p, free, p);
    } else if Steady(ppn, r, free) {
      forall f
        ensures !Steady(ppn, FreeRecords(ppn, r, 0, p), f)
      {
        FreeTwice(ppn, r, free, p, f);
      }
    }
  }

  /** A page in use shows that it is not free. */
  lemma InUseShows(ppn: seq<nat>, r: Records, free: set<Block>, p: nat)
    requires Steady(ppn, r, free) && p < |ppn| && !IsFree(free, p)
    ensures r.order[p] == -1
  {
    assert OpenSteady(Key) && OpenLists(Key);
  }

  // ---------------------------------------------------------------------------------------------
  // The steps of allocating
  // ---------------------------------------------------------------------------------------------

  /** A listed page starts a free block of the list's order. */
  lemma Listed(ppn: seq<nat>, r: Records, free: set<Block>, t: nat, i: nat)
    requires Steady(ppn, r, free) && t <= MAX_ORDER && i in r.heads[t]
    ensures Splitting(ppn, r, free, t, Num(i, t)) && First(t, Num(i, t)) == i && (t, Num(i, t)) in free
  {
    assert OpenSteady(Key) && OpenLists(Key);
    assert FreeIn(free, i, t);
  }

  /** An empty list means no free block of that order. */
  lemma NotListed(ppn: seq<nat>, r: Records, free: set<Block>, t: nat, k: nat)
    requires Steady(ppn, r, free) && t <= MAX_ORDER && r.heads[t] == {}
    ensures (t, k) !in free
  {
    assert OpenSteady(Key) && OpenLists(Key);
    FirstIn(t, k);
    var i := First(t, k);
    assert i in r.heads[t] <==> FreeIn(free, i, t) && First(t, Num(i, t)) == i;
  }

  /** The records after block (t, k), which starts at page i, has been split. */
  function Split(r: Records, t: nat, i: nat): Records
    requires 0 < t < |r.heads| && t < |r.count| && i + Pow2(t - 1) < |r.order|
  {
    var b := i + Pow2(t - 1);
    With(With(Without(r, t, i), t - 1, i), t - 1, b).(order := r.order[i := t - 1][b := t - 1])
  }

  lemma SplitBlocks(ppn: seq<nat>, r: Records, free: set<Block>, t: nat, k: nat)
    requires ListsOk(ppn, r, free) && (t, k) in free && 0 < t <= MAX_ORDER
    ensures var free1, left, right := free - {(t, k)}, (t - 1, 2 * k), (t - 1, 2 * k + 1);
            && BlocksOk(ppn, free1 + {left}) && BlocksOk(ppn, free1 + {left} + {right}) && left !in free1 && right !in free1 + {left}
            && forall p: nat :: IsFree(free1 + {left} + {right}, p) <==> IsFree(free, p)
  {
    assert OpenLists(Key);
    var free1, left, right := free - {(t, k)}, (t - 1, 2 * k), (t - 1, 2 * k + 1);
    SplitFree(ppn, free, t, k, free1 + {left, right});
    assert free1 + {left} + {right} == free1 + {left, right};
    PartOk(ppn, free1 + {left}, free1 + {left, right});
  }

  lemma SplitLists(ppn: seq<nat>, r: Records, free: set<Block>, t: nat, k: nat)
    requires ListsOk(ppn, r, free) && (t, k) in free && 0 < t <= MAX_ORDER
    ensures var free' := free - {(t, k)} + {(t - 1, 2 * k), (t - 1, 2 * k + 1)};
            var r' := With(With(Without(r, t, First(t, k)), t - 1, First(t - 1, 2 * k)), t - 1, First(t - 1, 2 * k + 1));
            ListsOk(ppn, r', free') && Total(r'.count) == Total(r.count) && forall p: nat :: IsFree(free', p) <==> IsFree(free, p)
  {
    var left, right := (t - 1, 2 * k), (t - 1, 2 * k + 1);
    var free1 := free - {(t, k)};
    SplitBlocks(ppn, r, free, t, k);
    ListsWithout(ppn, r, free, t, k);
    ListsWith(ppn, Without(r, t, First(t, k)), free1, t - 1, 2 * k);
    ListsWith(ppn, With(Without(r, t, First(t, k)), t - 1, First(t - 1, 2 * k)), free1 + {left}, t - 1, 2 * k + 1);
    assert free1 + {left} + {right} == free1 + {left, right};
  }

  lemma PartOk(ppn: seq<nat>, part: set<Block>, free: set<Block>)
    requires BlocksOk(ppn, free) && part <= free
    ensures BlocksOk(ppn, part)
  {
    forall p: nat, s: nat, u: nat | FreeIn(part, p, s) && FreeIn(part, p, u)
      ensures s == u
    {
      assert FreeIn(free, p, s) && FreeIn(free, p, u);
    }
  }

  lemma SplitOrdersAll(ppn: seq<nat>, order: seq<int>, free: set<Block>, t: nat, k: nat, free': set<Block>)
    requires BlocksOk(ppn, free) && OrdersOk(order, free) && (t, k) in free && t > 0 && |order| == |ppn|
    requires free' == free - {(t, k)} + {(t - 1, 2 * k), (t - 1, 2 * k + 1)}
    requires forall p: nat :: IsFree(free', p) <==> IsFree(free, p)
    ensures First(t - 1, 2 * k) < |order| && First(t - 1, 2 * k + 1) < |order|
    ensures OrdersOk(order[First(t - 1, 2 * k) := t - 1][First(t - 1, 2 * k + 1) := t - 1], free')
  {
    var a, b := First(t - 1, 2 * k), First(t - 1, 2 * k + 1);
    SplitPages(ppn, free, t, k, a, b);
    SplitOrders(order, free, t, k, free', a, b, order[a := t - 1][b := t - 1]);
  }

  lemma SplitPages(ppn: seq<nat>, free: set<Block>, t: nat, k: nat, a: nat, b: nat)
    requires BlocksOk(ppn, free) && (t, k) in free && t > 0 && a == First(t - 1, 2 * k) && b == First(t - 1, 2 * k + 1)
    ensures a < |ppn| && b < |ppn| && IsFree(free, a) && IsFree(free, b)
    ensures forall s, j {:trigger (s, j) in free} :: (s, j) in free && (s, j) != (t, k) ==> First(s, j) != a && First(s, j) != b
  {
    Halves(t, k);
    FirstIn(t - 1, 2 * k);
    FirstIn(t - 1, 2 * k + 1);
    assert FreeIn(free, a, t) && FreeIn(free, b, t);
    forall s, j | (s, j) in free && (s, j) != (t, k)
      ensures First(s, j) != a && First(s, j) != b
    {
      SplitHeads(ppn, free, t, k, s, j);
    }
  }

  lemma SplitStepLists(ppn: seq<nat>, r: Records, free: set<Block>, t: nat, k: nat, free': set<Block>)
    requires Splitting(ppn, r, free, t, k) && 0 < t <= MAX_ORDER
    requires free' == free - {(t, k)} + {(t - 1, 2 * k), (t - 1, 2 * k + 1)}
    ensures First(t, k) + Pow2(t - 1) < |r.order| && First(t - 1, 2 * k) == First(t, k)
    ensures ListsOk(ppn, Split(r, t, First(t, k)), free') && Total(Split(r, t, First(t, k)).count) == Total(r.count)
    ensures forall p: nat :: IsFree(free', p) <==> IsFree(free, p)
  {
    assert OpenSplitting(Key);
    BlocksOf(ppn, r, free);
    Halves(t, k);
    SplitLists(ppn, r, free, t, k);
    var r' := With(With(Without(r, t, First(t, k)), t - 1, First(t - 1, 2 * k)), t - 1, First(t - 1, 2 * k + 1));
    ListsReorder(ppn, r', free', Split(r, t, First(t, k)).order);
  }

  lemma ListsReorder(ppn: seq<nat>, r: Records, free: set<Block>, order: seq<int>)
    requires ListsOk(ppn, r, free) && |order| == |ppn|
    ensures ListsOk(ppn, r.(order := order), free)
  {
  }

  lemma SplitStepOrders(ppn: seq<nat>, r: Records, free: set<Block>, t: nat, k: nat, free': set<Block>)
    requires Splitting(ppn, r, free, t, k) && 0 < t <= MAX_ORDER && First(t, k) + Pow2(t - 1) < |r.order|
    requires free' == free - {(t, k)} + {(t - 1, 2 * k), (t - 1, 2 * k + 1)}
    requires forall p: nat :: IsFree(free', p) <==> IsFree(free, p)
    ensures OrdersOk(Split(r, t, First(t, k)).order, free')
  {
    assert OpenSplitting(Key);
    BlocksOf(ppn, r, free);
    Halves(t, k);
    SplitOrdersAll(ppn, r.order, free, t, k, free');
  }

  lemma SplitStepMerged(ppn: seq<nat>, r: Records, free: set<Block>, t: nat, k: nat, free': set<Block>)
    requires Splitting(ppn, r, free, t, k) && 0 < t <= MAX_ORDER
    requires free' == free - {(t, k)} + {(t - 1, 2 * k), (t - 1, 2 * k + 1)}
    ensures MergedBut(ppn, free', t - 1, 2 * k)
  {
    assert OpenSplitting(Key);
    BlocksOf(ppn, r, free);
    SplitFree(ppn, free, t, k, free');
    SplitMerged(ppn, free, t, k, free');
  }

  lemma CloseSplitting(ppn: seq<nat>, r: Records, free: set<Block>, t: nat, k: nat)
    requires ListsOk(ppn, r, free) && OrdersOk(r.order, free) && MergedBut(ppn, free, t, k) && (t, k) in free
    ensures Splitting(ppn, r, free, t, k)
  {
  }

  lemma SplitStep(ppn: seq<nat>, r: Records, free: set<Block>, t: nat, k: nat)
    requires Splitting(ppn, r, free, t, k) && 0 < t <= MAX_ORDER
    ensures First(t, k) + Pow2(t - 1) < |r.order|
    ensures var free', r' := free - {(t, k)} + {(t - 1, 2 * k), (t - 1, 2 * k + 1)}, Split(r, t, First(t, k));
            && Splitting(ppn, r', free', t - 1, 2 * k) && Total(r'.count) == Total(r.count)
            && First(t - 1, 2 * k) == First(t, k) && forall p: nat :: IsFree(free', p) <==> IsFree(free, p)
  {
    var free' := free - {(t, k)} + {(t - 1, 2 * k), (t - 1, 2 * k + 1)};
    SplitStepLists(ppn, r, free, t, k, free');
    SplitStepOrders(ppn, r, free, t, k, free');
    SplitStepMerged(ppn, r, free, t, k, free');
    CloseSplitting(ppn, Split(r, t, First(t, k)), free', t - 1, 2 * k);
  }

  /** Pages a .. a + n show -1. */
  ghost predicate Marked(order: seq<int>, order': seq<int>, a: nat, n: nat)
  {
    |order'| == |order| && forall p :: 0 <= p < |order| ==> order'[p] == if a <= p < a + n then -1 else order[p]
  }

  /** Block (t, k) is handed out. */
  lemma TakeStep(ppn: seq<nat>, r: Records, free: set<Block>, t: nat, k: nat, order': seq<int>)
    requires Splitting(ppn, r, free, t, k) && t <= MAX_ORDER && Marked(r.order, order', First(t, k), Pow2(t))
    ensures var free', r' := free - {(t, k)}, Without(r, t, First(t, k)).(order := order');
            && Steady(ppn, r', free') && Total(r'.count) == Total(r.count) - Pow2(t)
            && forall p: nat :: IsFree(free', p) <==> IsFree(free, p) && Num(p, t) != k
  {
    assert OpenSplitting(Key);
    BlocksOf(ppn, r, free);
    var free' := free - {(t, k)};
    TakeFree(ppn, free, t, k, free');
    ListsWithout(ppn, r, free, t, k);
    TakeOrders(ppn, r.order, free, t, k, free', order');
    TakeMerged(ppn, free, t, k);
  }

  lemma TakeMerged(ppn: seq<nat>, free: set<Block>, t: nat, k: nat)
    requires MergedBut(ppn, free, t, k)
    ensures Merged(ppn, free - {(t, k)})
  {
  }

  lemma TakeOrders(ppn: seq<nat>, order: seq<int>, free: set<Block>, t: nat, k: nat, free': set<Block>, order': seq<int>)
    requires BlocksOk(ppn, free) && OrdersOk(order, free) && (t, k) in free && free' == free - {(t, k)}
    requires Marked(order, order', First(t, k), Pow2(t))
    requires forall p: nat :: IsFree(free', p) <==> IsFree(free, p) && Num(p, t) != k
    ensures OrdersOk(order', free')
  {
    forall s, j | (s, j) in free'
      ensures First(s, j) < |order'| && order'[First(s, j)] == s
    {
      FirstIn(s, j);
      BlockRun(t, k, First(s, j));
      assert FreeIn(free, First(s, j), s);
      assert Num(First(s, j), t) == k ==> FreeIn(free, First(s, j), t);
    }
    forall p: nat | p < |order'| && !IsFree(free', p)
      ensures order'[p] == -1
    {
      BlockRun(t, k, p);
    }
  }

  // ---------------------------------------------------------------------------------------------
  // The zone
  // ---------------------------------------------------------------------------------------------

  /** A page is owned exactly while it is in no free block. */
  ghost predicate RefsOk(refs: seq<int>, free: set<Block>)
  {
    forall p: nat :: p < |refs| ==> refs[p] >= 0 && (refs[p] > 0 <==> !IsFree(free, p))
  }

  /** The first 2^a pages of a free block that is at least that large are free, so they have no owner. */
  lemma BlockOwned(ppn: seq<nat>, r: Records, free: set<Block>, t: nat, k: nat, a: nat, refs: seq<int>)
    requires Splitting(ppn, r, free, t, k) && a <= t && RefsOk(refs, free) && |refs| == |ppn|
    ensures First(t, k) + Pow2(a) <= |ppn| && Pow2(a) <= Pow2(t)
    ensures forall p: nat :: First(t, k) <= p < First(t, k) + Pow2(a) ==> IsFree(free, p) && refs[p] == 0
  {
    assert OpenSplitting(Key) && OpenLists(Key);
    PowMono(a, t);
    forall p: nat | First(t, k) <= p < First(t, k) + Pow2(a)
      ensures IsFree(free, p) && refs[p] == 0
    {
      BlockRun(t, k, p);
      assert FreeIn(free, p, t);
    }
  }

  lemma {:induction false} PowMono(a: nat, b: nat)
    requires a <= b
    ensures Pow2(a) <= Pow2(b)
    decreases b
  {
    if a < b {
      PowMono(a, b - 1);
    }
  }

  lemma InRange(ppn: seq<nat>, r: Records, free: set<Block>, t: nat, k: nat)
    requires Splitting(ppn, r, free, t, k)
    ensures First(t, k) + Pow2(t) <= |ppn| && Run(ppn, First(t, k), Pow2(t))
  {
    assert OpenSplitting(Key) && OpenLists(Key);
  }

  lemma TakenRefs(refs: seq<int>, free: set<Block>, free': set<Block>, t: nat, k: nat, refs': seq<int>)
    requires RefsOk(refs, free) && |refs'| == |refs|
    requires forall p: nat :: IsFree(free', p) <==> IsFree(free, p) && Num(p, t) != k
    requires forall p :: 0 <= p < |refs| ==> refs'[p] == if First(t, k) <= p < First(t, k) + Pow2(t) then 1 else refs[p]
    ensures RefsOk(refs', free')
    ensures forall p: nat :: IsFree(free', p) <==> IsFree(free, p) && !(First(t, k) <= p < First(t, k) + Pow2(t))
  {
    forall p: nat
      ensures Num(p, t) == k <==> First(t, k) <= p < First(t, k) + Pow2(t)
    {
      BlockRun(t, k, p);
    }
  }

  /** The order computed for at most 2^MAX_ORDER pages is at most MAX_ORDER. */
  lemma OrderBound(number: nat, e: nat)
    requires 0 < number <= Pow2(MAX_ORDER) && (number > 1 ==> e > 0 && Pow2(e - 1) < number) && (number <= 1 ==> e == 0)
    ensures e <= MAX_ORDER && Pow2(e) < 2 * number
  {
    if e > MAX_ORDER {
      PowMono(MAX_ORDER, e - 1);
    }
  }

  lemma {:induction false} NothingFree(count: seq<int>, n: nat)
    requires n <= |count| && forall i :: 0 <= i < |count| ==> count[i] == 0
    ensures Sum(count, n) == 0
  {
    if n > 0 {
      NothingFree(count, n - 1);
    }
  }

  /** No free block has order a or more. */
  ghost predicate NoBlock(free: set<Block>, a: nat) { forall s: nat, k: nat :: a <= s <= MAX_ORDER ==> (s, k) !in free }

  ghost predicate SameFree(free: set<Block>, free': set<Block>) { forall p: nat :: IsFree(free', p) <==> IsFree(free, p) }

  class Zone {
    /** Page frame numbers by page index. */
    const ppn: seq<nat>
    var r: Records
    var total: int
    var refs: seq<int>
    ghost var free: set<Block>

    ghost predicate Valid()
      reads this
    {
      Steady(ppn, r, free) && total == Total(r.count) && |refs| == |ppn| && RefsOk(refs, free)
    }

    /** A zone all of whose pages are in use; freeing them builds the free blocks. */
    constructor (frames: seq<nat>)
      ensures Valid() && ppn == frames && free == {} && forall p :: 0 <= p < |ppn| ==> refs[p] == 1
      ensures r == Records(seq(|frames|, _ => -1), seq(MAX_ORDER + 1, _ => {}), seq(MAX_ORDER + 1, _ => 0))
    {
      ppn := frames;
      r := Records(seq(|frames|, _ => -1), seq(MAX_ORDER + 1, _ => {}), seq(MAX_ORDER + 1, _ => 0));
      total, refs, free := 0, seq(|frames|, _ => 1), {};
      new;
      NothingFree(r.count, |r.count|);
    }

    /** pmm_free_one_index: refused for a page that shows an order, and otherwise right exactly for pages in use. */
    method FreeIndex(p: nat) returns (ok: bool)
      requires Shaped(ppn, r)
      modifies this`r, this`total, this`free
      ensures Shaped(ppn, r)
      ensures ok <==> p < |ppn| && old(r).order[p] < 0
      ensures !ok ==> r == old(r) && total == old(total) && free == old(free)
      ensures ok ==> r == FreeRecords(ppn, old(r), 0, p) && total == old(total) + 1
      ensures old(Steady(ppn, r, free)) && p < |ppn| && !old(IsFree(free, p)) ==>
                ok && Steady(ppn, r, free) && Total(r.count) == old(Total(r.count)) + 1
                && forall q: nat :: IsFree(free, q) <==> old(IsFree(free, q)) || q == p
      ensures ok && old(Steady(ppn, r, free)) && old(IsFree(free, p)) ==> forall f :: !Steady(ppn, r, f)
    {
      if p >= |ppn| || r.order[p] >= 0 {
        if p < |ppn| && Steady(ppn, r, free) && !IsFree(free, p) {
          InUseShows(ppn, r, free, p);
        }
        return false;
      }
      ok := true;
      var t: nat, index: nat := 0, p;
      while t < MAX_ORDER
        invariant t <= MAX_ORDER && index < |ppn| && total == old(total) && Shaped(ppn, r) && free == old(free)
        invariant FreeRecords(ppn, r, t, index) == FreeRecords(ppn, old(r), 0, p)
      {
        var buddy := Flip(index, t);
        if buddy < 0 || buddy >= |ppn| || !Adjacent(ppn, t, Num(index, t)) || r.order[buddy] != t {
          break;
        }
        r := Without(r, t, buddy);
        index := if index < buddy then index else buddy;
        t := t + 1;
      }
      r := With(r, t, index).(order := r.order[index := t]);
      total := total + 1;
      free := FreedBlocks(ppn, old(r), free, p);
    }

    /** The smallest order from a on with a free block. */
    method FindOrder(a: nat) returns (found: bool, t: nat)
      requires Valid() && a <= MAX_ORDER
      ensures found ==> a <= t <= MAX_ORDER && r.heads[t] != {}
      ensures !found ==> forall s: nat, k: nat :: a <= s <= MAX_ORDER ==> (s, k) !in free
    {
      t := a;
      while t <= MAX_ORDER
        invariant a <= t <= MAX_ORDER + 1
        invariant forall s: nat, k: nat :: a <= s < t ==> (s, k) !in free
      {
        if r.heads[t] != {} {
          return true, t;
        }
        forall k: nat
          ensures (t, k) !in free
        {
          NotListed(ppn, r, free, t, k);
        }
        t := t + 1;
      }
      return false, 0;
    }

    /** Pages a .. a + n are claimed; each of them has no owner. */
    method Claim(a: nat, n: nat)
      requires a + n <= |refs| && forall p :: a <= p < a + n ==> refs[p] == 0
      modifies this`refs
      ensures |refs| == |old(refs)| && forall p :: 0 <= p < |refs| ==> refs[p] == if a <= p < a + n then 1 else old(refs)[p]
    {
      var i := 0;
      while i < n
        invariant 0 <= i <= n && |refs| == |old(refs)|
        invariant forall p :: 0 <= p < |refs| ==> refs[p] == if a <= p < a + i then 1 else old(refs)[p]
      {
        refs := refs[a + i := 1];
        i := i + 1;
      }
    }

    method Mark(a: nat, n: nat)
      requires a + n <= |r.order|
      modifies this`r
      ensures r == old(r).(order := r.order) && Marked(old(r).order, r.order, a, n)
    {
      var i := 0;
      while i < n
        invariant 0 <= i <= n && r == old(r).(order := r.order) && Marked(old(r).order, r.order, a, i)
      {
        r := r.(order := r.order[a + i := -1]);
        i := i + 1;
      }
    }

    /** Splits the free block at page i down to order a and takes the lower part out of the lists. */
    method Carve(i: nat, order: nat, a: nat)
      requires a <= order <= MAX_ORDER && Splitting(ppn, r, free, order, Num(i, order)) && First(order, Num(i, order)) == i
      modifies this`r, this`free
      ensures Steady(ppn, r, free) && Total(r.count) == old(Total(r.count)) - Pow2(a)
      ensures i + Pow2(a) <= |ppn| && i == First(a, Num(i, a)) && Run(ppn, i, Pow2(a))
      ensures forall p: nat :: IsFree(free, p) <==> old(IsFree(free, p)) && Num(p, a) != Num(i, a)
    {
      ghost var k := SplitDown(i, order, a);
      InRange(ppn, r, free, a, k);
      FirstIn(a, k);
      ghost var r0 := r;
      Mark(i, Pow2(a));
      TakeStep(ppn, r0, free, a, k, r.order);
      r, free := Without(r, a, i), free - {(a, k)};
    }

    method SplitDown(i: nat, order: nat, a: nat) returns (ghost k: nat)
      requires a <= order <= MAX_ORDER && Splitting(ppn, r, free, order, Num(i, order)) && First(order, Num(i, order)) == i
      modifies this`r, this`free
      ensures Splitting(ppn, r, free, a, k) && First(a, k) == i && Total(r.count) == old(Total(r.count))
      ensures SameFree(old(free), free)
    {
      var t := order;
      k := Num(i, order);
      while t > a
        invariant a <= t <= MAX_ORDER && Splitting(ppn, r, free, t, k) && First(t, k) == i && Total(r.count) == old(Total(r.count))
        invariant SameFree(old(free), free)
      {
        SplitStep(ppn, r, free, t, k);
        assert SameFree(old(free), free - {(t, k)} + {(t - 1, 2 * k), (t - 1, 2 * k + 1)});
        r, free := Split(r, t, i), free - {(t, k)} + {(t - 1, 2 * k), (t - 1, 2 * k + 1)};
        t, k := t - 1, 2 * k;
      }
    }

    /** pmm_alloc_zone: a block of order a. */
    method AllocOrder(a: nat) returns (res: Result)
      requires Valid() && a <= MAX_ORDER
      modifies this
      ensures Valid() && !res.Invalid?
      ensures res.NoMemory? <==> NoBlock(old(free), a)
      ensures res.NoMemory? ==> r == old(r) && refs == old(refs) && free == old(free) && total == old(total)
      ensures res.Pages? ==> Handed(ppn, old(free), free, old(refs), refs, res.first, a) && total == old(total) - Pow2(a)
    {
      var found, t := FindOrder(a);
      if !found {
        return NoMemory;
      }
      var i :| i in r.heads[t];
      Listed(ppn, r, free, t, i);
      BlockOwned(ppn, r, free, t, Num(i, t), a, refs);
      Claim(i, Pow2(a));
      Carve(i, t, a);
      total := total - Pow2(a);
      FirstIsMultiple(a, Num(i, a));
      TakenRefs(old(refs), old(free), free, a, Num(i, a), refs);
      return Pages(i);
    }

    /** pmm_alloc, without retries. */
    method Alloc(number: nat) returns (res: Result, order: nat)
      requires Valid()
      modifies this
      ensures Valid()
      ensures res.Invalid? <==> number == 0 || (number <= old(total) && number > Pow2(MAX_ORDER))
      ensures 0 < number <= old(total) && number <= Pow2(MAX_ORDER) ==>
                number <= Pow2(order) && (order > 0 ==> Pow2(order - 1) < number) && (res.NoMemory? <==> NoBlock(old(free), order))
      ensures number > old(total) && number > 0 ==> res.NoMemory?
      ensures !res.Pages? ==> refs == old(refs) && free == old(free) && total == old(total)
      ensures res.Pages? ==> number <= Pow2(order) < 2 * number && order <= MAX_ORDER
      ensures res.Pages? ==> Handed(ppn, old(free), free, old(refs), refs, res.first, order) && total == old(total) - Pow2(order)
    {
      order := 0;
      if number == 0 {
        return Invalid, 0;
      }
      if total < number {
        return NoMemory, 0;
      }
      if number > Pow2(MAX_ORDER) {
        return Invalid, 0;
      }
      assert Pow2(MAX_ORDER) == 1024;
      order := CeilLog2(number);
      OrderBound(number, order);
      res := AllocOrder(order);
    }

    /** Pages first .. first + number are in the zone. */
    predicate InBounds(first: nat, number: nat) { first < |ppn| && first + number <= |ppn| }

    /** Each of the pages has an owner. */
    ghost predicate Owned(refs: seq<int>, first: nat, number: nat)
    {
      forall p :: first <= p < first + number && p < |refs| ==> refs[p] > 0
    }

    /** One reference of page p is dropped, and the page freed if none is left. */
    method FreeOne(p: nat) returns (ok: bool)
      requires Shaped(ppn, r) && |refs| == |ppn| && p < |ppn|
      modifies this
      ensures Shaped(ppn, r) && refs == old(refs)[p := old(refs)[p] - 1]
      ensures old(refs)[p] > 1 ==> ok && r == old(r) && total == old(total) && free == old(free)
      ensures old(refs)[p] <= 1 ==> (ok <==> old(r).order[p] < 0) && r == if ok then FreeRecords(ppn, old(r), 0, p) else old(r)
      ensures old(Valid()) && old(refs)[p] > 0 ==>
                ok && Valid() && forall q: nat :: IsFree(free, q) <==> old(IsFree(free, q)) || (q == p && old(refs)[p] == 1)
    {
      ok := true;
      refs := refs[p := refs[p] - 1];
      if refs[p] <= 0 {
        ok := FreeIndex(p);
      }
    }

    /**
     pmm_free: one reference of each of the pages is dropped; those without another go back to the free blocks. The
     zone stays in order exactly when each of the pages had an owner.
     */
    method Free(first: nat, number: nat) returns (ok: bool)
      requires Valid()
      modifies this
      ensures |refs| == |old(refs)| && Shaped(ppn, r)
      ensures !InBounds(first, number) ==> !ok && r == old(r) && refs == old(refs) && free == old(free) && total == old(total)
      ensures InBounds(first, number) && Owned(old(refs), first, number) ==>
                && ok && Valid()
                && forall q: nat :: IsFree(free, q) <==> old(IsFree(free, q)) || (first <= q < first + number && old(refs)[q] == 1)
      ensures InBounds(first, number) && !Owned(old(refs), first, number) ==> exists p :: 0 <= p < |refs| && refs[p] < 0
      ensures ok ==> forall p :: 0 <= p < |refs| ==> refs[p] == old(refs)[p] - if first <= p < first + number then 1 else 0
      ensures number == 1 && first < |ppn| && old(refs)[first] <= 1 ==>
                && (ok <==> old(r).order[first] < 0)
                && r == (if ok then FreeRecords(ppn, old(r), 0, first) else old(r))
    {
      if first >= |ppn| || (number > 1 && first + number - 1 >= |ppn|) {
        return false;
      }
      ok := true;
      var i := 0;
      while i < number
        invariant 0 <= i <= number && |refs| == |old(refs)| && Shaped(ppn, r)
        invariant forall p :: 0 <= p < |refs| ==> refs[p] == old(refs)[p] - if first <= p < first + i then 1 else 0
        invariant Owned(old(refs), first, i) ==> Valid()
        invariant Owned(old(refs), first, i) ==> forall q: nat :: IsFree(free, q) <==> old(IsFree(free, q)) || (first <= q < first + i && old(refs)[q] == 1)
        invariant i == 0 ==> r == old(r)
        invariant number == 1 == i && old(refs)[first] <= 1 ==> old(r).order[first] < 0 && r == FreeRecords(ppn, old(r), 0, first)
      {
        ok := FreeOne(first + i);
        if !ok {
          assert !Owned(old(refs), first, i + 1);
          ghost var p :| first <= p < first + i + 1 && p < |old(refs)| && old(refs)[p] <= 0;
          assert refs[p] < 0;
          return;
        }
        i := i + 1;
      }
    }
  }

  /** The pages of block (t, k) have been handed out, from page i on: they were free, now each has one owner; nothing else changed. */
  ghost predicate Handed(ppn: seq<nat>, free: set<Block>, free': set<Block>, refs: seq<int>, refs': seq<int>, i: nat, t: nat)
  {
    && i + Pow2(t) <= |ppn| && i == Num(i, t) * Pow2(t) && Run(ppn, i, Pow2(t))
    && |refs'| == |refs|
    && (forall p: nat :: i <= p < i + Pow2(t) ==> IsFree(free, p))
    && (forall p: nat :: IsFree(free', p) <==> IsFree(free, p) && !(i <= p < i + Pow2(t)))
    && (forall p :: 0 <= p < |refs| ==> refs'[p] == if i <= p < i + Pow2(t) then 1 else refs[p])
  }

  /** Frame numbers and page indexes agree modulo the largest block. */
  ghost predicate Congruent(ppn: seq<nat>) { forall i :: 0 <= i < |ppn| ==> ppn[i] % Pow2(MAX_ORDER) == i % Pow2(MAX_ORDER) }

  lemma {:induction false} PowParts(t: nat, m: nat)
    requires t <= m
    ensures exists n: nat :: Pow2(m) == n * Pow2(t)
    decreases m
  {
    if t < m {
      PowParts(t, m - 1);
      var n: nat :| Pow2(m - 1) == n * Pow2(t);
      assert Pow2(m) == (2 * n) * Pow2(t);
    } else {
      assert Pow2(m) == 1 * Pow2(t);
    }
  }

  lemma ModPart(a: nat, b: nat, n: nat, d: nat)
    requires d > 0 && n > 0 && a % (n * d) == b % (n * d) && b % d == 0
    ensures a % d == 0
  {
    var m := n * d;
    var x, y := a / m, b / m;
    assert a == m * x + a % m && b == m * y + b % m;
    assert a - b == (n * (x - y)) * d;
    var z := b / d;
    assert a == (n * (x - y) + z) * d;
    ModOfProduct(n * (x - y) + z, d);
  }

  lemma ModOfProduct(q: int, d: int)
    requires d > 0
    ensures (q * d) % d == 0
  {
    var k, m := (q * d) / d, (q * d) % d;
    assert q * d == d * k + m;
    assert d * (q - k) == m;
    assert q - k >= 1 ==> d * (q - k) >= d;
    assert q - k <= -1 ==> d * (q - k) <= -d;
  }

  lemma AlignedPart(a: nat, i: nat, j: nat, t: nat)
    requires i == j * Pow2(t) && a % Pow2(MAX_ORDER) == i % Pow2(MAX_ORDER) && t <= MAX_ORDER
    ensures a % Pow2(t) == 0
  {
    PowParts(t, MAX_ORDER);
    var n: nat :| Pow2(MAX_ORDER) == n * Pow2(t);
    ModOfProduct(j, Pow2(t));
    ModPart(a, i, n, Pow2(t));
  }

  /** In such a zone a block of order t that is handed out starts at a multiple of its size in memory. */
  lemma HandedAligned(ppn: seq<nat>, free: set<Block>, free': set<Block>, refs: seq<int>, refs': seq<int>, i: nat, t: nat)
    requires Handed(ppn, free, free', refs, refs', i, t) && Congruent(ppn) && t <= MAX_ORDER
    ensures ppn[i] % Pow2(t) == 0
  {
    var j := Num(i, t);
    assert i == j * Pow2(t) && ppn[i] % Pow2(MAX_ORDER) == i % Pow2(MAX_ORDER);
    AlignedPart(ppn[i], i, j, t);
  }

  lemma TwoPages(r: Records)
    requires r == Records([-1, -1], seq(MAX_ORDER + 1, _ => {}), seq(MAX_ORDER + 1, _ => 0))
    ensures FreeRecords([0, 1], r, 0, 0).order == [0, -1]
    ensures FreeRecords([0, 1], FreeRecords([0, 1], r, 0, 0), 0, 1).order == [1, -1]
  {
    var r1 := FreeRecords([0, 1], r, 0, 0);
    assert !CanMerge([0, 1], r, 0, 0);
    assert First(0, 0) == 0 && First(0, 1) == 1 && Flip(1, 0) == 0 && Pow2(0) == 1;
    assert CanMerge([0, 1], r1, 0, 1);
    assert Flip(0, 1) == 2;
  }

  /**
   The order field does not reveal every second free: the two pages of a zone are freed in ascending order, and the
   second of them once more. The call succeeds, and no set of free blocks agrees with what it leaves.
   */
  method SecondFree() returns (z: Zone, ok: bool)
    ensures fresh(z) && ok && forall f :: !Steady(z.ppn, z.r, f)
  {
    z := new Zone([0, 1]);
    TwoPages(z.r);
    ok := z.Free(0, 1);
    ok := z.Free(1, 1);
    ghost var r, free := z.r, z.free;
    ok := z.Free(1, 1);
    forall f
      ensures !Steady(z.ppn, z.r, f)
    {
      FreeTwice(z.ppn, r, free, 1, f);
    }
  }
}

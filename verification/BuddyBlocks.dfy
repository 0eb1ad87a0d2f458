/** Aligned blocks of pages: block (t, k) is the k-th run of 2^t pages. */
module BuddyBlocks {

  const MAX_ORDER: nat := 10

  type Block = (nat, nat)

  function Pow2(t: nat): (n: nat)
    ensures n > 0
  {
    if t == 0 then 1 else 2 * Pow2(t - 1)
  }

  /** The number of the block of order t that page p is in. */
  function Num(p: nat, t: nat): nat { if t == 0 then p else Num(p, t - 1) / 2 }

  /** The first page of a block. */
  function First(t: nat, k: nat): nat { if t == 0 then k else First(t - 1, 2 * k) }

  function BuddyOf(k: nat): (b: nat)
    ensures b / 2 == k / 2 && b != k
  {
    if k % 2 == 0 then k + 1 else k - 1
  }

  lemma {:induction false} FirstNext(t: nat, k: nat)
    ensures First(t, k + 1) == First(t, k) + Pow2(t)
  {
    if t > 0 {
      FirstNext(t - 1, 2 * k);
      FirstNext(t - 1, 2 * k + 1);
    }
  }

  /** The pages of a block are a run from its first page. */
  lemma {:induction false} BlockRun(t: nat, k: nat, p: nat)
    ensures Num(p, t) == k <==> First(t, k) <= p < First(t, k) + Pow2(t)
  {
    if t > 0 {
      BlockRun(t - 1, 2 * k, p);
      BlockRun(t - 1, 2 * k + 1, p);
      FirstNext(t - 1, 2 * k);
    }
  }

  lemma FirstIn(t: nat, k: nat)
    ensures Num(First(t, k), t) == k
  {
    BlockRun(t, k, First(t, k));
  }

  /** Pages that share a block share every larger block. */
  lemma {:induction false} NumUp(p: nat, q: nat, t: nat, s: nat)
    requires t <= s && Num(p, t) == Num(q, t)
    ensures Num(p, s) == Num(q, s)
    decreases s
  {
    if t < s {
      NumUp(p, q, t, s - 1);
    }
  }

  /** The first page of a block is the first page of every smaller block it is in. */
  lemma {:induction false} FirstDown(t: nat, k: nat, s: nat)
    requires s <= t
    ensures First(t, k) == First(s, Num(First(t, k), s))
    decreases t
  {
    if s == t {
      FirstIn(t, k);
    } else {
      FirstDown(t - 1, 2 * k, s);
    }
  }

  /** Flipping bit t of the first page of a block gives the first page of its buddy. */
  lemma FlipIsBuddy(t: nat, k: nat)
    ensures First(t, BuddyOf(k)) == if k % 2 == 0 then First(t, k) + Pow2(t) else First(t, k) - Pow2(t)
  {
    if k % 2 == 0 {
      FirstNext(t, k);
    } else {
      FirstNext(t, k - 1);
    }
  }

  /** The lower of two buddies starts the block they merge to. */
  lemma MergeFirst(t: nat, k: nat)
    ensures First(t + 1, k / 2) == if k % 2 == 0 then First(t, k) else First(t, BuddyOf(k))
    ensures First(t + 1, k / 2) <= First(t, k) && First(t + 1, k / 2) <= First(t, BuddyOf(k))
  {
    FlipIsBuddy(t, k);
  }

  lemma {:induction false} FirstIsMultiple(t: nat, k: nat)
    ensures First(t, k) == k * Pow2(t)
  {
    if t > 0 {
      FirstIsMultiple(t - 1, 2 * k);
    }
  }

  // ---------------------------------------------------------------------------------------------
  // The smallest order that fits
  // ---------------------------------------------------------------------------------------------

  /** log2_of_next_power_of_two. */
  method CeilLog2(n: nat) returns (e: nat)
    requires n < 0x1_0000_0000
    ensures n <= Pow2(e)
    ensures n > 1 ==> e > 0 && Pow2(e - 1) < n
    ensures n <= 1 ==> e == 0
  {
    if n == 0 {
      return 0;
    }
    var m := n - 1;
    ghost var top := m;
    e := 0;
    if m / 0x1_0000 != 0 {
      Shift16(top, e);
      e, m := e + 16, m / 0x1_0000;
    }
    if m / 0x100 != 0 {
      Shift8(top, e);
      e, m := e + 8, m / 0x100;
    }
    e := LastBits(top, m, e);
  }

  /** The last three of the five steps. */
  method LastBits(ghost top: nat, m0: nat, e0: nat) returns (e: nat)
    requires Num(top, e0) == m0 < 0x100 && (e0 > 0 ==> m0 > 0)
    ensures top < Pow2(e) && (top > 0 ==> e > 0 && Pow2(e - 1) <= top) && (top == 0 ==> e == 0)
  {
    var m := m0;
    e := e0;
    if m / 16 != 0 {
      Shift4(top, e);
      e, m := e + 4, m / 16;
    }
    if m / 4 != 0 {
      Shift2(top, e);
      e, m := e + 2, m / 4;
    }
    if m / 2 != 0 {
      Shift1(top, e);
      e, m := e + 1, m / 2;
    }
    TopBit(top, e, m);
    e := e + m;
  }

  lemma TopBit(top: nat, e: nat, m: nat)
    requires Num(top, e) == m
    ensures m == 1 ==> Pow2(e) <= top < Pow2(e + 1)
    ensures m == 0 ==> top < Pow2(e)
    ensures top == 0 ==> m == 0
  {
    BlockRun(e, m, top);
    FirstIsMultiple(e, m);
  }

  /** Shifting twice. */
  lemma {:induction false} Shift(p: nat, e: nat, s: nat)
    ensures Num(p, e + s) == Num(Num(p, e), s)
  {
    if s > 0 {
      Shift(p, e, s - 1);
    }
  }

  lemma Halved2(m: nat)
    ensures Num(m, 2) == m / 4
  {
    assert Num(m, 1) == Num(m, 0) / 2;
  }

  lemma Halved4(m: nat)
    ensures Num(m, 4) == m / 16
  {
    Halved2(m);
    Halved2(m / 4);
    Shift(m, 2, 2);
  }

  lemma Halved8(m: nat)
    ensures Num(m, 8) == m / 0x100
  {
    Halved4(m);
    Halved4(m / 16);
    Shift(m, 4, 4);
  }

  lemma Halved16(m: nat)
    ensures Num(m, 16) == m / 0x1_0000
  {
    Halved8(m);
    Halved8(m / 0x100);
    Shift(m, 8, 8);
  }

  lemma Shift16(p: nat, e: nat)
    ensures Num(p, e + 16) == Num(p, e) / 0x1_0000
  {
    Shift(p, e, 16);
    Halved16(Num(p, e));
  }

  lemma Shift8(p: nat, e: nat)
    ensures Num(p, e + 8) == Num(p, e) / 0x100
  {
    Shift(p, e, 8);
    Halved8(Num(p, e));
  }

  lemma Shift4(p: nat, e: nat)
    ensures Num(p, e + 4) == Num(p, e) / 16
  {
    Shift(p, e, 4);
    Halved4(Num(p, e));
  }

  lemma Shift2(p: nat, e: nat)
    ensures Num(p, e + 2) == Num(p, e) / 4
  {
    Shift(p, e, 2);
    Halved2(Num(p, e));
  }

  lemma Shift1(p: nat, e: nat)
    ensures Num(p, e + 1) == Num(p, e) / 2
  {
  }
}

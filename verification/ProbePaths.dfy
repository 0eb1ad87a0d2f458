/** Open addressing with tombstones: probe paths, and what may change without breaking one. */
module ProbePaths {

  const EMPTY: int := -1
  const TOMB: int := -2

  /** The j-th bucket on the probe path of a hash. */
  function Bucket(h: nat, j: nat, cap: nat): (b: nat)
    requires cap > 0
    ensures b < cap
  {
    (h + j) % cap
  }

  /** Row r is found on the probe path of h before an empty bucket. */
  ghost predicate OnPath(ht: seq<int>, h: nat, r: nat)
  {
    |ht| > 0 && exists j: nat :: j < |ht| && OnPathAt(ht, h, r, j)
  }

  ghost predicate OnPathAt(ht: seq<int>, h: nat, r: nat, j: nat)
    requires |ht| > 0
  {
    ht[Bucket(h, j, |ht|)] == r && forall i: nat :: i < j ==> ht[Bucket(h, i, |ht|)] != EMPTY
  }

  /** A change that empties no bucket and takes no bucket from r keeps r on its path. */
  lemma PathKept(ht: seq<int>, ht': seq<int>, h: nat, r: nat)
    requires OnPath(ht, h, r) && |ht'| == |ht|
    requires forall b :: 0 <= b < |ht| && ht[b] != EMPTY ==> ht'[b] != EMPTY
    requires forall b :: 0 <= b < |ht| && ht[b] == r ==> ht'[b] == r
    ensures OnPath(ht', h, r)
  {
    var j: nat :| j < |ht| && OnPathAt(ht, h, r, j);
    assert OnPathAt(ht', h, r, j);
  }

  /** A row put into a bucket that the probe reaches is on its path. */
  lemma PathNew(ht: seq<int>, h: nat, r: nat, j: nat)
    requires j < |ht| && forall i: nat :: i < j ==> ht[Bucket(h, i, |ht|)] >= 0
    ensures OnPath(ht[Bucket(h, j, |ht|) := r], h, r)
  {
    var ht' := ht[Bucket(h, j, |ht|) := r];
    forall i: nat | i < j
      ensures ht'[Bucket(h, i, |ht'|)] != EMPTY
    {
      assert ht'[Bucket(h, i, |ht|)] == ht[Bucket(h, i, |ht|)] || ht'[Bucket(h, i, |ht|)] == r;
    }
    assert OnPathAt(ht', h, r, j);
  }

  /** A row on the path is met before the first empty bucket. */
  lemma PathBefore(ht: seq<int>, h: nat, r: nat, probe: nat)
    requires probe <= |ht| && (probe < |ht| ==> ht[Bucket(h, probe, |ht|)] == EMPTY)
    ensures OnPath(ht, h, r) ==> exists i: nat :: i < probe && ht[Bucket(h, i, |ht|)] == r
  {
    if OnPath(ht, h, r) {
      var j: nat :| j < |ht| && OnPathAt(ht, h, r, j);
      assert ht[Bucket(h, j, |ht|)] == r;
    }
  }

  function Count(ht: seq<int>, mark: int): nat
  {
    if ht == [] then 0 else Count(ht[1..], mark) + (if ht[0] == mark then 1 else 0)
  }

  lemma {:induction false} CountUpdate(ht: seq<int>, mark: int, b: nat, v: int)
    requires b < |ht|
    ensures Count(ht[b := v], mark) == Count(ht, mark) - (if ht[b] == mark then 1 else 0) + (if v == mark then 1 else 0)
  {
    if b == 0 {
      assert ht[b := v][1..] == ht[1..];
    } else {
      assert ht[b := v][1..] == ht[1..][b - 1 := v];
      CountUpdate(ht[1..], mark, b - 1, v);
    }
  }

  lemma {:induction false} CountSome(ht: seq<int>, mark: int) returns (b: nat)
    requires Count(ht, mark) > 0
    ensures b < |ht| && ht[b] == mark
  {
    b := 0;
    if ht[0] != mark {
      b := CountSome(ht[1..], mark);
      b := b + 1;
    }
  }

  lemma {:induction false} CountFresh(n: nat, mark: int)
    ensures Count(seq(n, _ => EMPTY), mark) == if mark == EMPTY then n else 0
  {
    if n > 0 {
      assert seq(n, _ => EMPTY)[1..] == seq(n - 1, _ => EMPTY);
      CountFresh(n - 1, mark);
    }
  }

  /** Every bucket is on every probe path. */
  lemma PathCovers(h: nat, b: nat, cap: nat) returns (j: nat)
    requires b < cap
    ensures j < cap && Bucket(h, j, cap) == b
  {
    j := (b + cap - h % cap) % cap;
    ModShift(h, b, cap);
  }

  lemma ModShift(h: nat, b: nat, cap: nat)
    requires b < cap
    ensures (h + (b + cap - h % cap) % cap) % cap == b
  {
    var q, r := h / cap, h % cap;
    assert h == q * cap + r;
    var j := (b + cap - r) % cap;
    if b >= r {
      assert b + cap - r == cap + (b - r);
      SmallMod(b - r, cap, 1);
      assert j == b - r;
      SmallMod(b, cap, q);
      assert h + j == q * cap + b;
    } else {
      SmallMod(b + cap - r, cap, 0);
      assert j == b + cap - r;
      SmallMod(b, cap, q + 1);
      assert h + j == (q + 1) * cap + b;
    }
  }

  lemma {:induction false} SmallMod(x: nat, cap: nat, q: nat)
    requires x < cap
    ensures (q * cap + x) % cap == x
    decreases q
  {
    if q > 0 {
      SmallMod(x, cap, q - 1);
      assert q * cap + x == (q - 1) * cap + x + cap;
      AddMod((q - 1) * cap + x, cap);
    }
  }

  lemma AddMod(y: nat, cap: nat)
    requires cap > 0
    ensures (y + cap) % cap == y % cap
  {
    var q, r := y / cap, y % cap;
    assert y + cap == (q + 1) * cap + r;
    DivUnique(y + cap, cap, q + 1, r);
  }

  lemma DivUnique(y: nat, cap: nat, q: nat, r: nat)
    requires r < cap && y == q * cap + r
    ensures y / cap == q && y % cap == r
  {
    var q', r' := y / cap, y % cap;
    Division(y, cap);
    if q' > q {
      Gap(q, q', cap);
    } else if q' < q {
      Gap(q', q, cap);
    }
  }

  lemma Division(y: nat, cap: nat)
    requires cap > 0
    ensures y == (y / cap) * cap + y % cap && 0 <= y % cap < cap
  {
  }

  lemma Gap(a: nat, b: nat, cap: nat)
    requires a < b
    ensures b * cap >= a * cap + cap
  {
    var d: nat := b - a - 1;
    assert b * cap == a * cap + cap + d * cap;
  }

  /** The probe loop of an insertion: the first bucket that is empty or a tombstone. */
  method FirstFree(ht: seq<int>, h: nat) returns (found: bool, b: nat, ghost j: nat)
    requires |ht| > 0 && forall b :: 0 <= b < |ht| ==> ht[b] >= -2
    ensures found <==> exists b :: 0 <= b < |ht| && ht[b] < 0
    ensures found ==> j < |ht| && b == Bucket(h, j, |ht|) && ht[b] < 0 && forall i: nat :: i < j ==> ht[Bucket(h, i, |ht|)] >= 0
  {
    var probe := 0;
    while probe < |ht|
      invariant 0 <= probe <= |ht|
      invariant forall i: nat :: i < probe ==> ht[Bucket(h, i, |ht|)] >= 0
    {
      b := Bucket(h, probe, |ht|);
      if ht[b] == EMPTY || ht[b] == TOMB {
        return true, b, probe;
      }
      probe := probe + 1;
    }
    forall c | 0 <= c < |ht|
      ensures ht[c] >= 0
    {
      var i := PathCovers(h, c, |ht|);
    }
    return false, 0, 0;
  }
}

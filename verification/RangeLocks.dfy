/**
 vmm_radix_tree.c: range locks of the address-space radix tree. A range takes the level-0 entries it touches
 in ascending order, then the level-2 entries, and gives the level-0 entries back before it is used. A failed
 acquisition is rolled back: level-2 locks are given back, level-1 entries that count nothing lose their table,
 and an insertion overwrites level-0 entries that count nothing.
 */
module RangeLocks {

  /** Level-2 entries per level-0 entry and per level-1 entry. */
  const BAND: nat := 0x4_0000
  const TABLE: nat := 512
  /** Level-0 entries from here on belong to the kernel and are never overwritten. */
  const USER: nat := 256

  /** The level-0 and the level-1 entry above level-2 entry i. */
  function Big(i: nat): nat { i / BAND }
  function Mid(i: nat): nat { i / TABLE }

  /** The level-0 entry above level-1 entry y. */
  function Over(y: nat): nat { y / TABLE }

  datatype Kind = Insert | Query

  /** The table a level-2 entry is in: how often the entries above it have lost theirs. */
  datatype Table = Table(root: nat, gen: nat)

  datatype Phase =
    | Idle
    | BigUp(next: nat)                // taking level-0 entries; `next` is the one to take
    | Tables                          // has these; looks for the tables on the way down, or makes them
    | SmallUp(next: nat, seen: Table) // taking level-2 entries; `seen` is the table `next` was found in
    | SmallBack(next: nat)            // acquisition failed: giving level-2 entries back, from next - 1 down
    | TableBack(next: nat)            // then looking at level-1 entries, from next - 1 down
    | RootBack(next: nat)             // then at level-0 entries
    | BigDown(next: nat, won: bool)   // giving level-0 entries back, from `next` down
    | Holding                         // range in use
    | SmallDown(next: nat)            // giving level-2 entries back, from next - 1 down

  /** One processor: what it wants, its range of level-2 entries, and where it is. */
  datatype Cpu = Cpu(kind: Kind, lo: nat, hi: nat, phase: Phase)

  /**
   Lock bits of level-0 entries and, by table, of level-2 entries; how often each level-0 and level-1 entry has
   lost its table; which of them have one, and which are valid; the level-2 tables that have been given back, each with
   the level-1 entry it was below; and which entries of each level have a count that is not zero.
   */
  datatype State = State(big: set<nat>, small: set<(Table, nat)>, roots: map<nat, nat>, tables: map<nat, nat>,
                         kids0: set<nat>, kids1: set<nat>, valid0: set<nat>, valid1: set<nat>, freed: set<(Table, nat)>,
                         full0: set<nat>, full1: set<nat>, full2: set<nat>, cpus: seq<Cpu>)

  datatype Step =
    | Begin(cpu: nat, kind: Kind, lo: nat, hi: nat)
    | Go(cpu: nat)
    | FailBig(cpu: nat, at: nat)    // no memory for a table below level-0 entry `at`
    | FailMid(cpu: nat, at: nat)    // the same for level-1 entry `at`
    | FailSmall(cpu: nat)           // the same for the level-2 entry just taken, or overlap after the last one

  function Get(m: map<nat, nat>, x: nat): nat { if x in m then m[x] else 0 }

  function TableOf(s: State, i: nat): Table { Table(Get(s.roots, Big(i)), Get(s.tables, Mid(i))) }

  function FirstBig(c: Cpu): nat { Big(c.lo) }

  function LastBig(c: Cpu): nat
    requires c.hi > 0
  {
    Big(c.hi - 1)
  }

  function FirstMid(c: Cpu): nat { Mid(c.lo) }

  function LastMid(c: Cpu): nat
    requires c.hi > 0
  {
    Mid(c.hi - 1)
  }

  /** A processor whose next step waits for a lock bit to clear. */
  predicate Waits(s: State, c: Cpu)
  {
    match c.phase
    case BigUp(n) => n in s.big
    case SmallUp(n, seen) => n < c.hi && (seen, n) in s.small
    case _ => false
  }

  predicate Inserts(c: Cpu) { c.kind.Insert? && c.lo < c.hi }

  /** Only insertions fail for want of memory; a query fails at the first entry that is not valid. */
  predicate Enabled(s: State, e: Step)
  {
    && e.cpu < |s.cpus|
    && match e
       case Begin(c, kind, lo, hi) => s.cpus[c].phase.Idle? && lo < hi
       case Go(c) => !s.cpus[c].phase.Idle? && !Waits(s, s.cpus[c]) && s.cpus[c].lo < s.cpus[c].hi
       case FailBig(c, x) =>
         s.cpus[c].phase.Tables? && Inserts(s.cpus[c]) && FirstBig(s.cpus[c]) <= x <= LastBig(s.cpus[c]) && x < USER && x !in s.kids0
       case FailMid(c, y) =>
         s.cpus[c].phase.Tables? && Inserts(s.cpus[c]) && FirstMid(s.cpus[c]) <= y <= LastMid(s.cpus[c]) && y !in s.kids1
       case FailSmall(c) => s.cpus[c].phase.SmallUp? && Inserts(s.cpus[c]) && !Waits(s, s.cpus[c])
  }

  // ---------------------------------------------------------------------------------------------
  // What a successful insertion counts
  // ---------------------------------------------------------------------------------------------

  predicate Within(lo: nat, i: nat, hi: nat) { lo <= i < hi }

  function Entries(lo: nat, hi: nat): set<nat> { set i | lo <= i < hi && Within(lo, i, hi) }

  /** The level-1 entry y of the range gets a count that is not zero added. */
  predicate Raised1(s: State, lo: nat, hi: nat, y: nat)
    requires lo < hi
  {
    if Mid(lo) == Mid(hi - 1) then y == Mid(lo) && exists i :: lo <= i < hi && i !in s.full2
    else (y == Mid(lo) && lo !in s.full2) || Mid(lo) < y < Mid(hi - 1)
  }

  /** The level-0 entry x gets a count that is not zero added. */
  predicate Raised0(s: State, lo: nat, hi: nat, x: nat)
    requires lo < hi
  {
    if Big(lo) == Big(hi - 1) then x == Big(lo) && exists y :: Mid(lo) <= y <= Mid(hi - 1) && y !in s.full1 && Raised1(s, lo, hi, y)
    else (x == Big(lo) && Mid(lo) !in s.full1 && Raised1(s, lo, hi, Mid(lo))) || Big(lo) < x < Big(hi - 1)
  }

  /** The level-1 and the level-0 entries of the range are looked at, and made valid. */
  predicate Reaches1(s: State, lo: nat, hi: nat)
    requires lo < hi
  {
    Mid(lo) != Mid(hi - 1) || Raised1(s, lo, hi, Mid(lo))
  }

  predicate Reaches0(s: State, lo: nat, hi: nat)
    requires lo < hi
  {
    Big(lo) != Big(hi - 1) || Raised0(s, lo, hi, Big(lo))
  }

  /**
   Phase 5. The flags that decide whether the level above is looked at are combined with a short-circuiting "and",
   so only the first entry of a range that changes anything is carried up, and never the last one of several.
   */
  function Count(s: State, lo: nat, hi: nat): State
    requires lo < hi
  {
    s.(full2 := s.full2 + Entries(lo, hi),
       full1 := s.full1 + (set y | Mid(lo) <= y <= Mid(hi - 1) && Raised1(s, lo, hi, y)),
       full0 := s.full0 + (set x | Big(lo) <= x <= Big(hi - 1) && Raised0(s, lo, hi, x)),
       valid1 := if Reaches1(s, lo, hi) then s.valid1 + Entries(Mid(lo), Mid(hi - 1) + 1) else s.valid1,
       valid0 := if Reaches0(s, lo, hi) then s.valid0 + Entries(Big(lo), Big(hi - 1) + 1) else s.valid0)
  }

  // ---------------------------------------------------------------------------------------------
  // Steps
  // ---------------------------------------------------------------------------------------------

  /** Rolling back overwrites this level-0 entry, lock bit included. */
  predicate Overwrites(s: State, c: Cpu, x: nat) { c.kind.Insert? && x !in s.full0 && x < USER && x in s.kids0 }

  /** A query gives a level-2 entry that is not valid back at once and fails. */
  predicate Takes(s: State, c: Cpu, n: nat) { c.kind.Insert? || n in s.full2 }

  /** The first entry from a to b that is not in the set, or b. */
  function FirstOut(valid: set<nat>, a: nat, b: nat): (x: nat)
    ensures a <= b ==> a <= x <= b && (x < b ==> x !in valid)
    ensures forall z :: a <= z < x ==> z in valid
    decreases b - a
  {
    if a < b && a in valid then FirstOut(valid, a + 1, b) else a
  }

  /** From the tables on the way down: a query stops at the first entry that is not valid. */
  function Down(s: State, c: Cpu): Phase
    requires c.lo < c.hi
  {
    var x, y := FirstOut(s.valid0, FirstBig(c), LastBig(c) + 1), FirstOut(s.valid1, FirstMid(c), LastMid(c) + 1);
    if c.kind.Query? && x <= LastBig(c) then RootBack(x)
    else if c.kind.Query? && y <= LastMid(c) then TableBack(y)
    else SmallUp(c.lo, TableOf(s, c.lo))
  }

  /** Where a processor goes from here. */
  function Next(s: State, c: Cpu): Phase
    requires c.lo < c.hi
  {
    match c.phase
    case Idle => Idle
    case BigUp(n) => if n < LastBig(c) then BigUp(n + 1) else Tables
    case Tables => Down(s, c)
    case SmallUp(n, seen) =>
      if n >= c.hi then BigDown(LastBig(c), true)
      else if !Takes(s, c, n) then SmallBack(n)
      else SmallUp(n + 1, if n + 1 < c.hi then TableOf(s, n + 1) else seen)
    case SmallBack(n) => if n > c.lo then SmallBack(n - 1) else TableBack(LastMid(c) + 1)
    case TableBack(n) => if n > FirstMid(c) then TableBack(n - 1) else RootBack(LastBig(c) + 1)
    case RootBack(n) => if n > FirstBig(c) then RootBack(n - 1) else BigDown(LastBig(c), false)
    case BigDown(n, won) => if n > FirstBig(c) then BigDown(n - 1, won) else if won then Holding else Idle
    case Holding => SmallDown(c.hi)
    case SmallDown(n) => if n > c.lo then SmallDown(n - 1) else Idle
  }

  /** An insertion makes the tables of its range that are missing, below level-0 entries up to x and level-1 entries up to y. */
  function Ensured(s: State, c: Cpu, x: nat, y: nat): State
  {
    if c.kind.Insert? then
      s.(kids0 := s.kids0 + (set z | z in Entries(FirstBig(c), x) && z < USER), kids1 := s.kids1 + Entries(FirstMid(c), y))
    else s
  }

  function Release(s: State, n: nat): State { s.(small := s.small - {(TableOf(s, n), n)}) }

  /** A level-1 entry that counts nothing loses its table, whatever is locked in it; the table is given back. */
  function DropTable(s: State, y: nat): State
  {
    if y in s.full1 || y !in s.kids1 then s
    else s.(tables := s.tables[y := Get(s.tables, y) + 1], freed := s.freed + {(Table(Get(s.roots, Over(y)), Get(s.tables, y)), y)},
            kids1 := s.kids1 - {y}, valid1 := s.valid1 - {y}, full2 := set i | i in s.full2 && Mid(i) != y)
  }

  /** A level-0 entry loses its level-1 table, and with it all below, although level-2 tables are not given back. */
  function Overwrite(s: State, x: nat): State
  {
    s.(big := s.big - {x}, kids0 := s.kids0 - {x}, valid0 := s.valid0 - {x}, roots := s.roots[x := Get(s.roots, x) + 1],
       kids1 := (set y | y in s.kids1 && Over(y) != x), valid1 := (set y | y in s.valid1 && Over(y) != x),
       full1 := (set y | y in s.full1 && Over(y) != x), full2 := set i | i in s.full2 && Big(i) != x)
  }

  /** What a processor changes in the tree on its way. */
  function Tree(s: State, c: Cpu): (t: State)
    requires c.lo < c.hi
    ensures t.cpus == s.cpus
  {
    match c.phase
    case BigUp(n) => s.(big := s.big + {n})
    case Tables => Ensured(s, c, LastBig(c) + 1, LastMid(c) + 1)
    case SmallUp(n, seen) =>
      if n >= c.hi then if c.kind.Insert? then Count(s, c.lo, c.hi) else s
      else if Takes(s, c, n) then s.(small := s.small + {(seen, n)}) else s
    case SmallBack(n) => if n > c.lo then Release(s, n - 1) else s
    case TableBack(n) => if n > FirstMid(c) then DropTable(s, n - 1) else s
    case RootBack(n) => if n > FirstBig(c) && Overwrites(s, c, n - 1) then Overwrite(s, n - 1) else s
    case BigDown(n, won) => s.(big := s.big - {n})
    case SmallDown(n) => if n > c.lo then Release(s, n - 1) else s
    case _ => s
  }

  function Put(s: State, i: nat, c: Cpu): State
    requires i < |s.cpus|
  {
    s.(cpus := s.cpus[i := c])
  }

  /** The processor after its step, and what the step does to the tree. */
  function After(s: State, e: Step): Cpu
    requires Enabled(s, e)
  {
    var c := s.cpus[e.cpu];
    match e
    case Begin(k, kind, lo, hi) => Cpu(kind, lo, hi, BigUp(Big(lo)))
    case Go(k) => c.(phase := Next(s, c))
    case FailBig(k, x) => c.(phase := RootBack(x))
    case FailMid(k, y) => c.(phase := TableBack(y))
    case FailSmall(k) => c.(phase := SmallBack(c.phase.next))
  }

  function Effect(s: State, e: Step): (t: State)
    requires Enabled(s, e)
    ensures t.cpus == s.cpus
  {
    var c := s.cpus[e.cpu];
    match e
    case Begin(k, kind, lo, hi) => s
    case Go(k) => Tree(s, c)
    case FailBig(k, x) => Ensured(s, c, x, FirstMid(c))
    case FailMid(k, y) => Ensured(s, c, LastBig(c) + 1, y)
    case FailSmall(k) => s
  }

  function Apply(s: State, e: Step): State
    requires Enabled(s, e)
  {
    Put(Effect(s, e), e.cpu, After(s, e))
  }

  function GoStep(s: State, i: nat): State
    requires Enabled(s, Go(i))
  {
    Apply(s, Go(i))
  }

  // ---------------------------------------------------------------------------------------------
  // Who holds what
  // ---------------------------------------------------------------------------------------------

  predicate OwnsSmall(c: Cpu, i: nat)
  {
    && c.lo <= i
    && match c.phase
       case SmallUp(n, seen) => i < n
       case SmallBack(n) => i < n
       case SmallDown(n) => i < n
       case BigDown(n, won) => won && i < c.hi
       case Holding => i < c.hi
       case _ => false
  }

  predicate OwnsBig(c: Cpu, x: nat)
  {
    && c.lo < c.hi && FirstBig(c) <= x
    && match c.phase
       case BigUp(n) => x < n
       case Tables => x <= LastBig(c)
       case SmallUp(n, seen) => x <= LastBig(c)
       case SmallBack(n) => x <= LastBig(c)
       case TableBack(n) => x <= LastBig(c)
       case RootBack(n) => x <= LastBig(c)
       case BigDown(n, won) => x <= n
       case _ => false
  }

  /** Has its range: whatever it still does, it waits for nothing. */
  predicate Settled(c: Cpu) { (c.phase.BigDown? && c.phase.won) || c.phase.Holding? || c.phase.SmallDown? }

  predicate CpuOk(c: Cpu)
  {
    c.phase.Idle? ||
    (&& c.lo < c.hi
     && match c.phase
        case Idle => true
        case BigUp(n) => FirstBig(c) <= n <= LastBig(c)
        case Tables => true
        case SmallUp(n, seen) => c.lo <= n <= c.hi
        case SmallBack(n) => c.lo <= n <= c.hi
        case TableBack(n) => FirstMid(c) <= n <= LastMid(c) + 1
        case RootBack(n) => FirstBig(c) <= n <= LastBig(c) + 1
        case BigDown(n, won) => FirstBig(c) <= n <= LastBig(c)
        case Holding => true
        case SmallDown(n) => c.lo <= n <= c.hi)
  }

  lemma BigMono(i: nat, j: nat)
    requires i <= j
    ensures Big(i) <= Big(j) && Mid(i) <= Mid(j)
  {
  }

  /** A level-1 entry is below one level-0 entry. */
  lemma BigOfMid(i: nat)
    ensures Big(i) == Over(Mid(i))
  {
  }

  ghost predicate Others(s: State, s': State, k: nat)
  {
    k < |s.cpus| == |s'.cpus| && forall a :: 0 <= a < |s.cpus| && a != k ==> s'.cpus[a] == s.cpus[a]
  }

  // ---------------------------------------------------------------------------------------------
  // Level-0 locks
  // ---------------------------------------------------------------------------------------------

  ghost predicate CpusOk(s: State) { forall i :: 0 <= i < |s.cpus| ==> CpuOk(s.cpus[i]) }

  /** A level-0 lock bit is set exactly while a processor holds the entry. */
  ghost predicate BigExact(s: State)
  {
    && (forall x :: x in s.big ==> exists a :: 0 <= a < |s.cpus| && OwnsBig(s.cpus[a], x))
    && (forall x: nat, a :: 0 <= a < |s.cpus| && OwnsBig(s.cpus[a], x) ==> x in s.big)
  }

  /** No level-0 entry is held twice. */
  ghost predicate BigExclusive(s: State)
  {
    forall x: nat, a, b :: 0 <= a < b < |s.cpus| ==> !(OwnsBig(s.cpus[a], x) && OwnsBig(s.cpus[b], x))
  }

  /** Processor k moves, and with it the level-0 bits: what it gains was free, what it loses is cleared. */
  ghost predicate BigMoves(s: State, s': State, k: nat)
  {
    && Others(s, s', k)
    && (forall x: nat :: OwnsBig(s'.cpus[k], x) ==> OwnsBig(s.cpus[k], x) || x !in s.big)
    && (forall x: nat :: x in s'.big <==>
          if OwnsBig(s.cpus[k], x) || OwnsBig(s'.cpus[k], x) then OwnsBig(s'.cpus[k], x) else x in s.big)
  }

  lemma BigExactKept(s: State, s': State, k: nat)
    requires BigExact(s) && BigExclusive(s) && BigMoves(s, s', k)
    ensures BigExact(s')
  {
    forall x | x in s'.big
      ensures exists a :: 0 <= a < |s'.cpus| && OwnsBig(s'.cpus[a], x)
    {
      if !OwnsBig(s'.cpus[k], x) {
        var a :| 0 <= a < |s.cpus| && OwnsBig(s.cpus[a], x);
        assert OwnsBig(s'.cpus[a], x);
      }
    }
    forall x: nat, a | 0 <= a < |s'.cpus| && OwnsBig(s'.cpus[a], x)
      ensures x in s'.big
    {
      if a != k {
        assert OwnsBig(s.cpus[a], x) && x in s.big;
        var lo, hi := if a < k then a else k, if a < k then k else a;
        assert !(OwnsBig(s.cpus[lo], x) && OwnsBig(s.cpus[hi], x));
      }
    }
  }

  lemma BigExclusiveKept(s: State, s': State, k: nat)
    requires BigExact(s) && BigExclusive(s) && BigMoves(s, s', k)
    ensures BigExclusive(s')
  {
    forall x: nat, a, b | 0 <= a < b < |s'.cpus|
      ensures !(OwnsBig(s'.cpus[a], x) && OwnsBig(s'.cpus[b], x))
    {
      assert !(OwnsBig(s.cpus[a], x) && OwnsBig(s.cpus[b], x));
      assert a != k && OwnsBig(s.cpus[a], x) ==> x in s.big;
      assert b != k && OwnsBig(s.cpus[b], x) ==> x in s.big;
    }
  }

  /** Of this level-0 entry a failed insertion does not give the table back. */
  predicate Spared(s: State, x: nat) { x in s.full0 || x >= USER }

  /** The level-0 entries that rolling back still looks at. */
  predicate ToUndo(c: Cpu, x: nat)
  {
    && c.lo < c.hi && FirstBig(c) <= x <= LastBig(c)
    && match c.phase
       case SmallBack(n) => true
       case TableBack(n) => true
       case RootBack(n) => x < n
       case _ => false
  }

  /** Rolling back the insertion overwrites nothing. */
  ghost predicate Harmless(s: State, c: Cpu)
  {
    c.kind.Insert? ==> forall x: nat :: ToUndo(c, x) ==> Spared(s, x)
  }

  /** The insertion has a table below the level-0 entries it would overwrite. */
  ghost predicate Rooted(s: State, c: Cpu)
  {
    c.kind.Insert? ==> forall x: nat :: Rooting(c, x) && x < USER ==> x in s.kids0
  }

  ghost predicate AllHarmless(s: State) { forall a :: 0 <= a < |s.cpus| ==> Harmless(s, s.cpus[a]) }

  ghost predicate AllRooted(s: State) { forall a :: 0 <= a < |s.cpus| ==> Rooted(s, s.cpus[a]) }

  /** The failure, if the step is one, is of a query or overwrites nothing. */
  ghost predicate Careful(s: State, e: Step)
    requires Enabled(s, e)
  {
    !e.Go? && !e.Begin? ==> Harmless(s, Apply(s, e).cpus[e.cpu])
  }

  // Going on moves the level-0 bits with what is held.

  /** The level-0 entry a processor takes, or gives back, next. */
  predicate TakesBig(c: Cpu, x: nat) { c.phase.BigUp? && x == c.phase.next }
  predicate GivesBig(c: Cpu, x: nat) { c.phase.BigDown? && x == c.phase.next }

  lemma NextBig(s: State, c: Cpu, x: nat)
    requires CpuOk(c) && !c.phase.Idle?
    ensures OwnsBig(c.(phase := Next(s, c)), x) <==> (OwnsBig(c, x) || TakesBig(c, x)) && !GivesBig(c, x)
    ensures TakesBig(c, x) ==> !OwnsBig(c, x)
  {
    BigMono(c.lo, c.hi - 1);
    if c.phase.BigUp? {
      NextTakes(s, c, x);
    } else if c.phase.BigDown? {
      NextGives(s, c, x);
    }
  }

  lemma NextTakes(s: State, c: Cpu, x: nat)
    requires CpuOk(c) && c.phase.BigUp?
    ensures OwnsBig(c.(phase := Next(s, c)), x) <==> (OwnsBig(c, x) || TakesBig(c, x)) && !GivesBig(c, x)
  {
    BigMono(c.lo, c.hi - 1);
  }

  lemma NextGives(s: State, c: Cpu, x: nat)
    requires CpuOk(c) && c.phase.BigDown?
    ensures OwnsBig(c.(phase := Next(s, c)), x) <==> (OwnsBig(c, x) || TakesBig(c, x)) && !GivesBig(c, x)
  {
    BigMono(c.lo, c.hi - 1);
  }

  lemma DownOk(s: State, c: Cpu)
    requires c.lo < c.hi
    ensures CpuOk(c.(phase := Down(s, c)))
  {
    BigMono(c.lo, c.hi - 1);
  }

  lemma NextOk(s: State, c: Cpu)
    requires CpuOk(c) && !c.phase.Idle?
    ensures CpuOk(c.(phase := Next(s, c)))
  {
    BigMono(c.lo, c.hi - 1);
    if c.phase.Tables? {
      DownOk(s, c);
    }
  }

  /** What a processor does to the level-0 bits. */
  lemma TreeBig(s: State, c: Cpu, x: nat)
    requires CpuOk(c) && !c.phase.Idle? && Harmless(s, c)
    ensures x in Tree(s, c).big <==> (x in s.big || TakesBig(c, x)) && !GivesBig(c, x)
  {
    if c.phase.RootBack? {
      assert c.phase.next > FirstBig(c) ==> ToUndo(c, c.phase.next - 1);
    }
  }

  lemma GoBig(s: State, k: nat)
    requires CpusOk(s) && BigExact(s) && Enabled(s, Go(k)) && Harmless(s, s.cpus[k])
    ensures BigMoves(s, GoStep(s, k), k) && CpuOk(GoStep(s, k).cpus[k])
  {
    var c := s.cpus[k];
    NextOk(s, c);
    forall x: nat
      ensures OwnsBig(c.(phase := Next(s, c)), x) <==> (OwnsBig(c, x) || TakesBig(c, x)) && !GivesBig(c, x)
      ensures x in Tree(s, c).big <==> (x in s.big || TakesBig(c, x)) && !GivesBig(c, x)
      ensures TakesBig(c, x) ==> x !in s.big
      ensures GivesBig(c, x) ==> OwnsBig(c, x)
    {
      NextBig(s, c, x);
      TreeBig(s, c, x);
    }
    GoMovesBig(s, k);
  }

  lemma GoMovesBig(s: State, k: nat)
    requires BigExact(s) && Enabled(s, Go(k))
    requires forall x: nat :: OwnsBig(s.cpus[k].(phase := Next(s, s.cpus[k])), x) <==> (OwnsBig(s.cpus[k], x) || TakesBig(s.cpus[k], x)) && !GivesBig(s.cpus[k], x)
    requires forall x: nat :: x in Tree(s, s.cpus[k]).big <==> (x in s.big || TakesBig(s.cpus[k], x)) && !GivesBig(s.cpus[k], x)
    requires forall x: nat :: (TakesBig(s.cpus[k], x) ==> x !in s.big) && (GivesBig(s.cpus[k], x) ==> OwnsBig(s.cpus[k], x))
    ensures BigMoves(s, GoStep(s, k), k)
  {
  }

  lemma FailBigBig(s: State, k: nat, x: nat)
    requires CpusOk(s) && BigExact(s) && Enabled(s, FailBig(k, x))
    ensures BigMoves(s, Apply(s, FailBig(k, x)), k) && CpuOk(Apply(s, FailBig(k, x)).cpus[k])
  {
    BigMono(s.cpus[k].lo, s.cpus[k].hi - 1);
  }

  lemma FailMidBig(s: State, k: nat, y: nat)
    requires CpusOk(s) && BigExact(s) && Enabled(s, FailMid(k, y))
    ensures BigMoves(s, Apply(s, FailMid(k, y)), k) && CpuOk(Apply(s, FailMid(k, y)).cpus[k])
  {
    BigMono(s.cpus[k].lo, s.cpus[k].hi - 1);
  }

  lemma FailSmallBig(s: State, k: nat)
    requires CpusOk(s) && BigExact(s) && Enabled(s, FailSmall(k))
    ensures BigMoves(s, Apply(s, FailSmall(k)), k) && CpuOk(Apply(s, FailSmall(k)).cpus[k])
  {
    BigMono(s.cpus[k].lo, s.cpus[k].hi - 1);
  }

  lemma BeginBig(s: State, k: nat, kind: Kind, lo: nat, hi: nat)
    requires CpusOk(s) && BigExact(s) && Enabled(s, Begin(k, kind, lo, hi))
    ensures BigMoves(s, Apply(s, Begin(k, kind, lo, hi)), k) && CpuOk(Apply(s, Begin(k, kind, lo, hi)).cpus[k])
  {
    BigMono(lo, hi - 1);
  }

  lemma ApplyBig(s: State, e: Step)
    requires CpusOk(s) && BigExact(s) && Enabled(s, e) && AllHarmless(s)
    ensures BigMoves(s, Apply(s, e), e.cpu) && CpuOk(Apply(s, e).cpus[e.cpu])
  {
    match e
    case Begin(k, kind, lo, hi) => BeginBig(s, k, kind, lo, hi);
    case Go(k) => GoBig(s, k);
    case FailSmall(k) => FailSmallBig(s, k);
    case FailBig(k, x) => FailBigBig(s, k, x);
    case FailMid(k, y) => FailMidBig(s, k, y);
  }

  // ---------------------------------------------------------------------------------------------
  // Tables and counts
  // ---------------------------------------------------------------------------------------------

  /** Counts of level-0 entries only grow, and what is counted is valid. */
  lemma ApplyCounts(s: State, e: Step)
    requires Enabled(s, e)
    ensures s.full0 <= Apply(s, e).full0
    ensures s.full0 <= s.valid0 ==> Apply(s, e).full0 <= Apply(s, e).valid0
  {
    if e.Go? {
      TreeCounts0(s, s.cpus[e.cpu]);
    }
  }

  lemma TreeCounts0(s: State, c: Cpu)
    requires c.lo < c.hi
    ensures s.full0 <= Tree(s, c).full0 && (s.full0 <= s.valid0 ==> Tree(s, c).full0 <= Tree(s, c).valid0)
  {
    if c.phase.SmallUp? && c.phase.next >= c.hi && c.kind.Insert? {
      CountValid(s, c.lo, c.hi);
    }
  }

  lemma CountValid(s: State, lo: nat, hi: nat)
    requires lo < hi
    ensures s.full0 <= Count(s, lo, hi).full0 && (s.full0 <= s.valid0 ==> Count(s, lo, hi).full0 <= Count(s, lo, hi).valid0)
  {
    forall x | x in Count(s, lo, hi).full0 && x !in s.full0
      ensures x in Count(s, lo, hi).valid0
    {
      assert Within(Big(lo), x, Big(hi - 1) + 1);
    }
  }

  /** The processor is about to take the table of a level-1 entry away. */
  predicate Dropping(s: State, c: Cpu, y: nat)
  {
    c.phase.TableBack? && c.phase.next > FirstMid(c) && y == c.phase.next - 1 && y !in s.full1 && y in s.kids1
  }

  predicate Drops(s: State, e: Step, y: nat)
    requires Enabled(s, e)
  {
    e.Go? && Dropping(s, s.cpus[e.cpu], y)
  }

  lemma ApplyTables(s: State, e: Step)
    requires Enabled(s, e) && AllHarmless(s) && CpusOk(s)
    ensures Apply(s, e).roots == s.roots && s.kids0 <= Apply(s, e).kids0
    ensures forall y: nat :: Get(Apply(s, e).tables, y) == Get(s.tables, y) + if Drops(s, e, y) then 1 else 0
    ensures forall y: nat :: y in s.kids1 && !Drops(s, e, y) ==> y in Apply(s, e).kids1
  {
    if e.Go? {
      assert Harmless(s, s.cpus[e.cpu]);
      TreeTables(s, s.cpus[e.cpu]);
    }
  }

  lemma TreeTables(s: State, c: Cpu)
    requires CpuOk(c) && !c.phase.Idle? && Harmless(s, c)
    ensures Tree(s, c).roots == s.roots && s.kids0 <= Tree(s, c).kids0
    ensures forall y: nat :: Get(Tree(s, c).tables, y) == Get(s.tables, y) + if Dropping(s, c, y) then 1 else 0
    ensures forall y: nat :: y in s.kids1 && !Dropping(s, c, y) ==> y in Tree(s, c).kids1
  {
    if c.phase.RootBack? {
      assert c.phase.next > FirstBig(c) ==> ToUndo(c, c.phase.next - 1);
    } else if c.phase.TableBack? {
      TableBackTables(s, c);
    }
  }

  lemma TableBackTables(s: State, c: Cpu)
    requires CpuOk(c) && c.phase.TableBack?
    ensures Tree(s, c).roots == s.roots && s.kids0 <= Tree(s, c).kids0
    ensures forall y: nat :: Get(Tree(s, c).tables, y) == Get(s.tables, y) + if Dropping(s, c, y) then 1 else 0
    ensures forall y: nat :: y in s.kids1 && !Dropping(s, c, y) ==> y in Tree(s, c).kids1
  {
  }

  /** A processor that takes a table away holds the level-0 entry above and no level-2 entry. */
  lemma DropsOwned(s: State, e: Step, i: nat)
    requires Enabled(s, e) && CpusOk(s) && Drops(s, e, Mid(i))
    ensures OwnsBig(s.cpus[e.cpu], Big(i)) && Apply(s, e).small == s.small && s.cpus[e.cpu].phase.TableBack?
    ensures Apply(s, e).cpus[e.cpu].phase.TableBack?
  {
    var c := s.cpus[e.cpu];
    BigOfMid(i);
    BigOfMid(c.lo);
    BigOfMid(c.hi - 1);
    DivMono(Mid(c.lo), Mid(i));
    DivMono(Mid(i), Mid(c.hi - 1));
  }

  lemma DivMono(y: nat, z: nat)
    requires y <= z
    ensures Over(y) <= Over(z)
  {
  }

  // ---------------------------------------------------------------------------------------------
  // Level-2 locks, as far as runs that overwrite nothing go
  // ---------------------------------------------------------------------------------------------

  /** A processor goes for a level-2 entry in the table that is there. */
  ghost predicate Sees(s: State, c: Cpu) { c.phase.SmallUp? && c.phase.next < c.hi ==> c.phase.seen == TableOf(s, c.phase.next) }

  ghost predicate AllSee(s: State) { forall a :: 0 <= a < |s.cpus| ==> Sees(s, s.cpus[a]) }

  /** A set lock bit that can be reached has a holder. */
  ghost predicate SmallHeld(s: State)
  {
    forall i: nat :: (TableOf(s, i), i) in s.small ==> exists a :: 0 <= a < |s.cpus| && OwnsSmall(s.cpus[a], i)
  }

  /** No lock bit is in a table still to come. */
  ghost predicate NoneAhead(s: State)
  {
    forall t, i :: (t, i) in s.small ==> t.root <= TableOf(s, i).root && t.gen <= TableOf(s, i).gen
  }

  ghost predicate SmallMoves(s: State, s': State, k: nat)
  {
    && Others(s, s', k)
    && forall i: nat :: (TableOf(s', i), i) in s'.small ==> OwnsSmall(s'.cpus[k], i) || ((TableOf(s, i), i) in s.small && !OwnsSmall(s.cpus[k], i))
  }

  lemma SmallHeldKept(s: State, s': State, k: nat)
    requires SmallHeld(s) && SmallMoves(s, s', k)
    ensures SmallHeld(s')
  {
    forall i: nat | (TableOf(s', i), i) in s'.small
      ensures exists a :: 0 <= a < |s'.cpus| && OwnsSmall(s'.cpus[a], i)
    {
      if !OwnsSmall(s'.cpus[k], i) {
        var a :| 0 <= a < |s.cpus| && OwnsSmall(s.cpus[a], i);
        assert OwnsSmall(s'.cpus[a], i);
      }
    }
  }

  /** Steps that set and clear no level-2 bit. */
  lemma StillSmall(s: State, e: Step)
    requires Enabled(s, e) && CpusOk(s) && AllHarmless(s) && NoneAhead(s) && Apply(s, e).small == s.small
    requires forall i: nat :: OwnsSmall(s.cpus[e.cpu], i) ==> OwnsSmall(Apply(s, e).cpus[e.cpu], i)
    ensures SmallMoves(s, Apply(s, e), e.cpu)
  {
    var s' := Apply(s, e);
    ApplyTables(s, e);
    forall i: nat | (TableOf(s', i), i) in s'.small
      ensures (TableOf(s, i), i) in s.small
    {
      assert !Drops(s, e, Mid(i));
    }
  }

  lemma TakeSmall(s: State, k: nat)
    requires Enabled(s, Go(k)) && CpusOk(s) && s.cpus[k].phase.SmallUp?
    ensures SmallMoves(s, GoStep(s, k), k)
  {
    var s' := GoStep(s, k);
    assert s'.roots == s.roots && s'.tables == s.tables;
    forall i: nat
      ensures TableOf(s', i) == TableOf(s, i)
    {
    }
  }

  lemma GiveSmall(s: State, k: nat)
    requires Enabled(s, Go(k)) && CpusOk(s) && (s.cpus[k].phase.SmallBack? || s.cpus[k].phase.SmallDown?)
    ensures SmallMoves(s, GoStep(s, k), k)
  {
    var s' := GoStep(s, k);
    assert s'.roots == s.roots && s'.tables == s.tables;
    forall i: nat
      ensures TableOf(s', i) == TableOf(s, i)
    {
    }
  }

  lemma ApplySmall(s: State, e: Step)
    requires Enabled(s, e) && CpusOk(s) && AllHarmless(s) && NoneAhead(s)
    ensures SmallMoves(s, Apply(s, e), e.cpu)
  {
    if e.Go? && s.cpus[e.cpu].phase.SmallUp? {
      TakeSmall(s, e.cpu);
    } else if e.Go? && (s.cpus[e.cpu].phase.SmallBack? || s.cpus[e.cpu].phase.SmallDown?) {
      GiveSmall(s, e.cpu);
    } else {
      StillSmall(s, e);
    }
  }

  lemma ApplyNoneAhead(s: State, e: Step)
    requires Enabled(s, e) && CpusOk(s) && AllHarmless(s) && NoneAhead(s) && AllSee(s)
    ensures NoneAhead(Apply(s, e))
  {
    var s' := Apply(s, e);
    ApplyTables(s, e);
    forall t, i | (t, i) in s'.small
      ensures t.root <= TableOf(s', i).root && t.gen <= TableOf(s', i).gen
    {
      assert (t, i) in s.small || (t == TableOf(s, i) && Sees(s, s.cpus[e.cpu]));
      assert Get(s.tables, Mid(i)) <= Get(s'.tables, Mid(i));
    }
  }

  lemma ApplyOthers(s: State, e: Step)
    requires Enabled(s, e)
    ensures Others(s, Apply(s, e), e.cpu)
  {
  }

  lemma SeesKept(s: State, e: Step, a: nat)
    requires Enabled(s, e) && CpusOk(s) && AllHarmless(s) && BigExclusive(s) && a < |s.cpus| && a != e.cpu && Sees(s, s.cpus[a])
    ensures Sees(Apply(s, e), s.cpus[a])
  {
    var c := s.cpus[a];
    ApplyTables(s, e);
    if c.phase.SmallUp? && c.phase.next < c.hi {
      HeldTable(s, e, a, c.phase.next);
    }
  }

  /** No other processor takes a table of the range away while the range is being taken. */
  lemma HeldTable(s: State, e: Step, a: nat, n: nat)
    requires Enabled(s, e) && CpusOk(s) && BigExclusive(s) && a < |s.cpus| && a != e.cpu
    requires s.cpus[a].phase.SmallUp? && s.cpus[a].lo <= n < s.cpus[a].hi
    ensures !Drops(s, e, Mid(n))
  {
    var c := s.cpus[a];
    BigMono(c.lo, n);
    BigMono(n, c.hi - 1);
    var lo, hi := if a < e.cpu then a else e.cpu, if a < e.cpu then e.cpu else a;
    assert !(OwnsBig(s.cpus[lo], Big(n)) && OwnsBig(s.cpus[hi], Big(n)));
    if Drops(s, e, Mid(n)) {
      DropsOwned(s, e, n);
    }
  }

  lemma SeesOwn(s: State, e: Step)
    requires Enabled(s, e) && Sees(s, s.cpus[e.cpu])
    ensures Sees(Apply(s, e), Apply(s, e).cpus[e.cpu])
  {
  }

  lemma ApplySees(s: State, e: Step)
    requires Enabled(s, e) && CpusOk(s) && AllHarmless(s) && BigExclusive(s) && AllSee(s)
    ensures AllSee(Apply(s, e))
  {
    ApplyOthers(s, e);
    SeesOwn(s, e);
    forall a | 0 <= a < |s.cpus| && a != e.cpu
      ensures Sees(Apply(s, e), s.cpus[a])
    {
      SeesKept(s, e, a);
    }
  }

  /** Rolling back on looks at no more than before. */
  lemma NextUndo(s: State, c: Cpu, x: nat)
    requires CpuOk(c) && !c.phase.Idle? && c.kind.Insert? && ToUndo(c.(phase := Next(s, c)), x)
    ensures ToUndo(c, x)
  {
  }

  lemma HarmlessOwn(s: State, e: Step)
    requires Enabled(s, e) && CpusOk(s) && AllHarmless(s) && Careful(s, e)
    ensures Harmless(s, Apply(s, e).cpus[e.cpu])
  {
    if e.Go? && s.cpus[e.cpu].kind.Insert? {
      var c := s.cpus[e.cpu];
      forall x: nat | ToUndo(c.(phase := Next(s, c)), x)
        ensures Spared(s, x)
      {
        NextUndo(s, c, x);
        assert Harmless(s, c);
      }
    }
  }

  lemma HarmlessKept(s: State, s': State, c: Cpu)
    requires s.full0 <= s'.full0 && Harmless(s, c)
    ensures Harmless(s', c)
  {
  }

  lemma ApplyHarmless(s: State, e: Step)
    requires Enabled(s, e) && CpusOk(s) && AllHarmless(s) && Careful(s, e)
    ensures AllHarmless(Apply(s, e))
  {
    var s' := Apply(s, e);
    ApplyCounts(s, e);
    ApplyOthers(s, e);
    HarmlessOwn(s, e);
    forall a | 0 <= a < |s'.cpus|
      ensures Harmless(s', s'.cpus[a])
    {
      assert a != e.cpu ==> Harmless(s, s.cpus[a]);
      HarmlessKept(s, s', s'.cpus[a]);
    }
  }

  /** An insertion that still has to look at a level-0 entry has been through the tables. */
  ghost predicate Rooting(c: Cpu, x: nat) { ToUndo(c, x) || (c.phase.SmallUp? && OwnsBig(c, x)) }

  lemma NextRooting(s: State, c: Cpu, x: nat)
    requires CpuOk(c) && !c.phase.Idle? && c.kind.Insert? && Rooting(c.(phase := Next(s, c)), x)
    ensures Rooting(c, x) || (c.phase.Tables? && Within(FirstBig(c), x, LastBig(c) + 1))
  {
  }

  lemma RootedOwn(s: State, e: Step)
    requires Enabled(s, e) && CpusOk(s) && Rooted(s, s.cpus[e.cpu]) && s.kids0 <= Apply(s, e).kids0
    ensures Rooted(Apply(s, e), Apply(s, e).cpus[e.cpu])
  {
    var c, c' := s.cpus[e.cpu], Apply(s, e).cpus[e.cpu];
    forall x: nat | c'.kind.Insert? && Rooting(c', x) && x < USER
      ensures x in Apply(s, e).kids0
    {
      if e.Go? {
        NextRooting(s, c, x);
      } else {
        FailRooting(s, e, x);
      }
    }
  }

  lemma FailRooting(s: State, e: Step, x: nat)
    requires Enabled(s, e) && CpusOk(s) && Rooted(s, s.cpus[e.cpu]) && !e.Go? && Apply(s, e).cpus[e.cpu].kind.Insert?
    requires Rooting(Apply(s, e).cpus[e.cpu], x) && x < USER
    ensures x in Apply(s, e).kids0
  {
    var c := s.cpus[e.cpu];
    assert e.FailBig? ==> Within(FirstBig(c), x, e.at);
    assert e.FailMid? ==> Within(FirstBig(c), x, LastBig(c) + 1);
    assert e.FailSmall? ==> Rooting(c, x);
  }

  lemma ApplyRooted(s: State, e: Step)
    requires Enabled(s, e) && CpusOk(s) && AllHarmless(s) && AllRooted(s)
    ensures AllRooted(Apply(s, e))
  {
    var s' := Apply(s, e);
    ApplyTables(s, e);
    ApplyOthers(s, e);
    RootedOwn(s, e);
    forall a | 0 <= a < |s'.cpus|
      ensures Rooted(s', s'.cpus[a])
    {
      assert Rooted(s, s.cpus[a]);
    }
  }

  /** An insertion past the tables has one below each level-1 entry of its range. */
  ghost predicate Tabled(s: State, c: Cpu)
  {
    c.phase.SmallUp? && Inserts(c) ==> forall y :: FirstMid(c) <= y <= LastMid(c) ==> y in s.kids1
  }

  ghost predicate AllTabled(s: State) { forall a :: 0 <= a < |s.cpus| ==> Tabled(s, s.cpus[a]) }

  lemma TabledOwn(s: State, e: Step)
    requires Enabled(s, e) && Tabled(s, s.cpus[e.cpu])
    ensures Tabled(Apply(s, e), Apply(s, e).cpus[e.cpu])
  {
    var c := s.cpus[e.cpu];
    if e.Go? && c.phase.Tables? {
      forall y | FirstMid(c) <= y <= LastMid(c)
        ensures c.kind.Insert? ==> y in Apply(s, e).kids1
      {
        assert Within(FirstMid(c), y, LastMid(c) + 1);
      }
    }
  }

  /** Nobody else takes a table away from below an entry that a processor holds. */
  lemma TabledKept(s: State, e: Step, a: nat)
    requires Enabled(s, e) && CpusOk(s) && AllHarmless(s) && BigExclusive(s) && a < |s.cpus| && a != e.cpu && Tabled(s, s.cpus[a])
    ensures Tabled(Apply(s, e), s.cpus[a])
  {
    var c := s.cpus[a];
    ApplyTables(s, e);
    if c.phase.SmallUp? && Inserts(c) {
      forall y | FirstMid(c) <= y <= LastMid(c)
        ensures !Drops(s, e, y)
      {
        var i := Below(c.lo, c.hi, y);
        HeldTable(s, e, a, i);
      }
    }
  }

  lemma ApplyTabled(s: State, e: Step)
    requires Enabled(s, e) && CpusOk(s) && AllHarmless(s) && BigExclusive(s) && AllTabled(s)
    ensures AllTabled(Apply(s, e))
  {
    ApplyOthers(s, e);
    TabledOwn(s, e);
    forall a | 0 <= a < |s.cpus| && a != e.cpu
      ensures Tabled(Apply(s, e), s.cpus[a])
    {
      TabledKept(s, e, a);
    }
  }

  /** A table that was given back is not the one there. */
  ghost predicate FreedOld(s: State) { forall t, y :: (t, y) in s.freed ==> t.gen < Get(s.tables, y) }

  lemma ApplyFreed(s: State, e: Step)
    requires Enabled(s, e) && FreedOld(s)
    ensures FreedOld(Apply(s, e))
  {
  }

  // ---------------------------------------------------------------------------------------------
  // Runs that overwrite nothing
  // ---------------------------------------------------------------------------------------------

  ghost predicate Inv(s: State)
  {
    CpusOk(s) && BigExact(s) && BigExclusive(s) && AllHarmless(s) && AllRooted(s) && AllTabled(s) && AllSee(s) && SmallHeld(s)
    && NoneAhead(s) && FreedOld(s) && s.full0 <= s.valid0
  }

  /** An address space without tables in its user half. */
  ghost predicate Start(s: State)
  {
    && s.big == {} && s.small == {} && s.full0 == {} && s.full1 == {} && s.full2 == {}
    && s.freed == {} && s.kids1 == {} && s.valid1 == {} && (forall x :: x in s.kids0 ==> x >= USER)
    && forall i :: 0 <= i < |s.cpus| ==> s.cpus[i].phase.Idle?
  }

  lemma StartInv(s: State)
    requires Start(s)
    ensures Inv(s)
  {
  }

  lemma ApplyInv(s: State, e: Step)
    requires Inv(s) && Enabled(s, e) && Careful(s, e)
    ensures Inv(Apply(s, e))
  {
    ApplyBig(s, e);
    BigExactKept(s, Apply(s, e), e.cpu);
    BigExclusiveKept(s, Apply(s, e), e.cpu);
    ApplyHarmless(s, e);
    ApplyRooted(s, e);
    ApplySees(s, e);
    ApplySmall(s, e);
    SmallHeldKept(s, Apply(s, e), e.cpu);
    ApplyNoneAhead(s, e);
    ApplyTabled(s, e);
    ApplyFreed(s, e);
    ApplyCounts(s, e);
  }

  ghost predicate IsPath(run: seq<State>, steps: seq<Step>)
  {
    |run| == |steps| + 1 && forall i {:trigger steps[i]} :: 0 <= i < |steps| ==> Enabled(run[i], steps[i]) && run[i + 1] == Apply(run[i], steps[i])
  }

  ghost predicate IsRun(run: seq<State>, steps: seq<Step>) { IsPath(run, steps) && Start(run[0]) }

  /** Up to moment n, no failing insertion touches a level-0 entry of the user half that counts nothing. */
  ghost predicate CarefulRun(run: seq<State>, steps: seq<Step>, n: nat)
    requires IsRun(run, steps)
  {
    forall i {:trigger steps[i]} :: 0 <= i < n && i < |steps| ==> Careful(run[i], steps[i])
  }

  lemma {:induction false} RunInv(run: seq<State>, steps: seq<Step>, i: nat)
    requires IsRun(run, steps) && i < |run| && CarefulRun(run, steps, i)
    ensures Inv(run[i])
  {
    if i == 0 {
      StartInv(run[0]);
    } else {
      RunInv(run, steps, i - 1);
      ApplyInv(run[i - 1], steps[i - 1]);
    }
  }

  /** A processor that waits for a level-2 entry waits for one that has its range and waits for nothing. */
  lemma WaitsOnlyForSettled(run: seq<State>, steps: seq<Step>, i: nat, a: nat) returns (b: nat)
    requires IsRun(run, steps) && i < |run| && CarefulRun(run, steps, i) && a < |run[i].cpus|
    requires run[i].cpus[a].phase.SmallUp? && Waits(run[i], run[i].cpus[a])
    ensures b < |run[i].cpus| && OwnsSmall(run[i].cpus[b], run[i].cpus[a].phase.next) && Settled(run[i].cpus[b])
    ensures !OwnsBig(run[i].cpus[b], Big(run[i].cpus[a].phase.next)) && !Waits(run[i], run[i].cpus[b])
  {
    RunInv(run, steps, i);
    b := HolderSettled(run[i], a);
  }

  lemma HolderSettled(s: State, a: nat) returns (b: nat)
    requires CpusOk(s) && BigExclusive(s) && AllSee(s) && SmallHeld(s) && a < |s.cpus|
    requires s.cpus[a].phase.SmallUp? && Waits(s, s.cpus[a])
    ensures b < |s.cpus| && OwnsSmall(s.cpus[b], s.cpus[a].phase.next) && Settled(s.cpus[b])
    ensures !OwnsBig(s.cpus[b], Big(s.cpus[a].phase.next)) && !Waits(s, s.cpus[b])
  {
    var n := s.cpus[a].phase.next;
    assert Sees(s, s.cpus[a]);
    b :| 0 <= b < |s.cpus| && OwnsSmall(s.cpus[b], n);
    BigMono(s.cpus[a].lo, n);
    BigMono(n, s.cpus[a].hi - 1);
    BigMono(s.cpus[b].lo, n);
    BigMono(n, s.cpus[b].hi - 1);
    assert OwnsBig(s.cpus[a], Big(n)) && !OwnsSmall(s.cpus[a], n);
    var lo, hi := if a < b then a else b, if a < b then b else a;
    assert !(OwnsBig(s.cpus[lo], Big(n)) && OwnsBig(s.cpus[hi], Big(n)));
  }

  /** No processor comes to a level-2 entry of a table that has been given back. */
  lemma NeverAtFreedTable(run: seq<State>, steps: seq<Step>, i: nat, a: nat)
    requires IsRun(run, steps) && i < |run| && CarefulRun(run, steps, i) && a < |run[i].cpus|
    requires run[i].cpus[a].phase.SmallUp? && run[i].cpus[a].phase.next < run[i].cpus[a].hi
    ensures (run[i].cpus[a].phase.seen, Mid(run[i].cpus[a].phase.next)) !in run[i].freed
  {
    RunInv(run, steps, i);
    assert Sees(run[i], run[i].cpus[a]);
  }

  /** Among the processors below n there is one furthest on in taking level-0 entries, if there is one at all. */
  lemma {:induction false} FurthestBig(s: State, n: nat) returns (a: int)
    requires n <= |s.cpus|
    ensures -1 <= a < n
    ensures a == -1 ==> forall i :: 0 <= i < n ==> !s.cpus[i].phase.BigUp?
    ensures a >= 0 ==> s.cpus[a].phase.BigUp? && forall i :: 0 <= i < n && s.cpus[i].phase.BigUp? ==> s.cpus[i].phase.next <= s.cpus[a].phase.next
  {
    if n == 0 {
      return -1;
    }
    a := FurthestBig(s, n - 1);
    if s.cpus[n - 1].phase.BigUp? && (a == -1 || s.cpus[a].phase.next < s.cpus[n - 1].phase.next) {
      a := n - 1;
    }
  }

  /** A processor that waits for a level-2 entry finds one that can go on. */
  lemma SmallWaiterProgress(s: State, a: nat) returns (j: nat)
    requires Inv(s) && a < |s.cpus| && s.cpus[a].phase.SmallUp?
    ensures j < |s.cpus| && Enabled(s, Go(j))
  {
    j := a;
    if Waits(s, s.cpus[a]) {
      j := HolderSettled(s, a);
    }
  }

  /** Without overwriting there is no deadlock: while any processor is not idle, some processor can go on. */
  lemma NoDeadlock(run: seq<State>, steps: seq<Step>, i: nat, k: nat) returns (j: nat)
    requires IsRun(run, steps) && i < |run| && CarefulRun(run, steps, i) && k < |run[i].cpus| && !run[i].cpus[k].phase.Idle?
    ensures j < |run[i].cpus| && Enabled(run[i], Go(j))
  {
    RunInv(run, steps, i);
    var s := run[i];
    j := k;
    if s.cpus[k].phase.SmallUp? {
      j := SmallWaiterProgress(s, k);
    } else if Waits(s, s.cpus[k]) {
      var c := FurthestBig(s, |s.cpus|);
      j := c;
      if Waits(s, s.cpus[c]) {
        var b :| 0 <= b < |s.cpus| && OwnsBig(s.cpus[b], s.cpus[c].phase.next);
        j := b;
        if s.cpus[b].phase.SmallUp? {
          j := SmallWaiterProgress(s, b);
        }
      }
    }
  }

  // ---------------------------------------------------------------------------------------------
  // Exact counts, and level-2 exclusion
  // ---------------------------------------------------------------------------------------------

  /** A level-1 or level-0 entry counts something exactly when an entry of the level below it does. */
  ghost predicate Exact(s: State) { Exact1(s.full1, s.full2) && Exact0(s.full0, s.full2) }

  ghost predicate Exact1(full1: set<nat>, full2: set<nat>)
  {
    && (forall i :: i in full2 ==> Mid(i) in full1)
    && (forall y :: y in full1 ==> exists i :: i in full2 && Mid(i) == y)
  }

  ghost predicate Exact0(full0: set<nat>, full2: set<nat>)
  {
    && (forall i :: i in full2 ==> Big(i) in full0)
    && (forall x :: x in full0 ==> exists i :: i in full2 && Big(i) == x)
  }

  /** The range is below one level-1 entry, or the level-1 entry above its end counts something already. */
  predicate Carried(s: State, lo: nat, hi: nat)
    requires lo < hi
  {
    Mid(lo) == Mid(hi - 1) || Mid(hi - 1) in s.full1
  }

  lemma CountedMid(s: State, lo: nat, hi: nat, i: nat)
    requires lo <= i < hi && Exact1(s.full1, s.full2) && Carried(s, lo, hi) && i !in s.full2
    ensures Mid(i) in s.full1 || Raised1(s, lo, hi, Mid(i))
  {
    BigMono(lo, i);
    BigMono(i, hi - 1);
  }

  lemma CountExact1(s: State, lo: nat, hi: nat)
    requires lo < hi && Exact(s) && Carried(s, lo, hi)
    ensures Exact1(Count(s, lo, hi).full1, Count(s, lo, hi).full2)
  {
    var full1, full2 := Count(s, lo, hi).full1, Count(s, lo, hi).full2;
    forall i | i in full2
      ensures Mid(i) in full1
    {
      if i !in s.full2 {
        CountedMid(s, lo, hi, i);
        BigMono(lo, i);
        BigMono(i, hi - 1);
      }
    }
    forall y | y in full1
      ensures exists i :: i in full2 && Mid(i) == y
    {
      if y !in s.full1 {
        var i := Below(lo, hi, y);
        assert Within(lo, i, hi) && i in full2;
      }
    }
  }

  /** Every level-1 entry the range touches has a level-2 entry of the range below it. */
  lemma Below(lo: nat, hi: nat, y: nat) returns (i: nat)
    requires lo < hi && Mid(lo) <= y <= Mid(hi - 1)
    ensures lo <= i < hi && Mid(i) == y
  {
    i := if y == Mid(lo) then lo else y * TABLE;
  }

  lemma Below0(lo: nat, hi: nat, x: nat) returns (i: nat)
    requires lo < hi && Big(lo) <= x <= Big(hi - 1)
    ensures lo <= i < hi && Big(i) == x
  {
    i := if x == Big(lo) then lo else x * BAND;
  }

  /** A level-0 entry of the range that counts nothing yet is raised, if the last one counts something. */
  lemma RaisedAbove(s: State, lo: nat, hi: nat, i: nat)
    requires lo <= i < hi && Exact(s) && Carried(s, lo, hi) && Big(i) !in s.full0
    ensures Raised0(s, lo, hi, Big(i))
  {
    BigMono(lo, i);
    BigMono(i, hi - 1);
    BigOfMid(lo);
    BigOfMid(hi - 1);
    if Big(i) == Big(lo) {
      NothingBelow(s, lo);
      assert Raised1(s, lo, hi, Mid(lo));
    } else if Big(i) == Big(hi - 1) {
      NothingBelow(s, hi - 1);
    }
  }

  lemma NothingBelow(s: State, i: nat)
    requires Exact(s) && Big(i) !in s.full0
    ensures Mid(i) !in s.full1 && i !in s.full2
  {
    if Mid(i) in s.full1 {
      var j :| j in s.full2 && Mid(j) == Mid(i);
      BigOfMid(i);
      BigOfMid(j);
    }
  }

  lemma CountExact0(s: State, lo: nat, hi: nat)
    requires lo < hi && Exact(s) && Carried(s, lo, hi)
    ensures Exact0(Count(s, lo, hi).full0, Count(s, lo, hi).full2)
  {
    var s' := Count(s, lo, hi);
    forall i | i in s'.full2
      ensures Big(i) in s'.full0
    {
      if Big(i) !in s.full0 {
        assert lo <= i < hi;
        RaisedAbove(s, lo, hi, i);
        BigMono(lo, i);
        BigMono(i, hi - 1);
      }
    }
    forall x | x in s'.full0
      ensures exists i :: i in s'.full2 && Big(i) == x
    {
      if x !in s.full0 {
        var i := Below0(lo, hi, x);
        assert Within(lo, i, hi) && i in s'.full2;
      }
    }
  }

  lemma EndNotCounted(s: State, lo: nat, hi: nat)
    requires lo < hi && !Carried(s, lo, hi)
    ensures hi - 1 in Count(s, lo, hi).full2 && Mid(hi - 1) !in Count(s, lo, hi).full1
  {
    assert Within(lo, hi - 1, hi);
    assert !Raised1(s, lo, hi, Mid(hi - 1));
  }

  /** Exactly the insertions that stay below one level-1 entry, or end below one that counts something, keep counts exact. */
  lemma CountExactIff(s: State, lo: nat, hi: nat)
    requires lo < hi && Exact(s)
    ensures Exact(Count(s, lo, hi)) <==> Carried(s, lo, hi)
  {
    if Carried(s, lo, hi) {
      CountExact1(s, lo, hi);
      CountExact0(s, lo, hi);
    } else {
      EndNotCounted(s, lo, hi);
    }
  }

  /** Ranges in use count something in every level-2 entry, and so does what a query has taken so far. */
  ghost predicate Counted(s: State, c: Cpu)
  {
    && (Settled(c) ==> forall i :: c.lo <= i < c.hi ==> i in s.full2)
    && (c.phase.SmallUp? && c.kind.Query? ==> forall i :: c.lo <= i < c.phase.next ==> i in s.full2)
  }

  ghost predicate AllCounted(s: State) { forall a :: 0 <= a < |s.cpus| ==> Counted(s, s.cpus[a]) }

  /** A level-2 lock bit is in the table that is there, and set while its entry is held. */
  ghost predicate SmallExact(s: State)
  {
    && (forall t, i :: (t, i) in s.small ==> t == TableOf(s, i))
    && (forall i: nat, a :: 0 <= a < |s.cpus| && OwnsSmall(s.cpus[a], i) ==> (TableOf(s, i), i) in s.small)
  }

  /** No level-2 entry is held twice. */
  ghost predicate SmallExclusive(s: State)
  {
    forall i: nat, a, b :: 0 <= a < b < |s.cpus| ==> !(OwnsSmall(s.cpus[a], i) && OwnsSmall(s.cpus[b], i))
  }

  /** With this step an insertion succeeds. */
  predicate Ends(s: State, e: Step)
    requires Enabled(s, e)
  {
    var c := s.cpus[e.cpu];
    e.Go? && c.phase.SmallUp? && c.phase.next >= c.hi && c.kind.Insert?
  }

  /** The step, if an insertion succeeds with it, leaves counts exact. */
  predicate Carries(s: State, e: Step)
    requires Enabled(s, e)
  {
    Ends(s, e) ==> Carried(s, s.cpus[e.cpu].lo, s.cpus[e.cpu].hi)
  }

  /** A level-1 entry that counts nothing has nothing counted below it. */
  lemma DropCounts(s: State, y: nat)
    requires Exact1(s.full1, s.full2)
    ensures DropTable(s, y).full0 == s.full0 && DropTable(s, y).full1 == s.full1 && DropTable(s, y).full2 == s.full2
  {
  }

  /** Only success changes counts. */
  lemma TreeCounts(s: State, c: Cpu)
    requires CpuOk(c) && !c.phase.Idle? && Harmless(s, c) && Exact(s) && (c.phase.SmallUp? && c.kind.Insert? ==> c.phase.next < c.hi)
    ensures Tree(s, c).full0 == s.full0 && Tree(s, c).full1 == s.full1 && Tree(s, c).full2 == s.full2
  {
    if c.phase.TableBack? {
      DroppedCounts(s, c);
    } else if c.phase.RootBack? {
      UndoneCounts(s, c);
    } else {
      OtherCounts(s, c);
    }
  }

  lemma DroppedCounts(s: State, c: Cpu)
    requires CpuOk(c) && c.phase.TableBack? && Exact(s)
    ensures Tree(s, c).full0 == s.full0 && Tree(s, c).full1 == s.full1 && Tree(s, c).full2 == s.full2
  {
    if c.phase.next > FirstMid(c) {
      DropCounts(s, c.phase.next - 1);
    }
  }

  lemma UndoneCounts(s: State, c: Cpu)
    requires CpuOk(c) && c.phase.RootBack? && Harmless(s, c)
    ensures Tree(s, c) == s
  {
    assert c.phase.next > FirstBig(c) ==> ToUndo(c, c.phase.next - 1);
  }

  lemma OtherCounts(s: State, c: Cpu)
    requires c.lo < c.hi && !c.phase.TableBack? && !c.phase.RootBack? && (c.phase.SmallUp? && c.kind.Insert? ==> c.phase.next < c.hi)
    ensures Tree(s, c).full0 == s.full0 && Tree(s, c).full1 == s.full1 && Tree(s, c).full2 == s.full2
  {
  }

  lemma SameCounts(s: State, e: Step)
    requires Enabled(s, e) && !Ends(s, e) && CpusOk(s) && AllHarmless(s) && Exact(s)
    ensures Apply(s, e).full0 == s.full0 && Apply(s, e).full1 == s.full1 && Apply(s, e).full2 == s.full2
  {
    if e.Go? {
      TreeCounts(s, s.cpus[e.cpu]);
    }
  }

  lemma EndsCounts(s: State, e: Step)
    requires Enabled(s, e) && Ends(s, e)
    ensures var c := Count(s, s.cpus[e.cpu].lo, s.cpus[e.cpu].hi);
            Apply(s, e).full0 == c.full0 && Apply(s, e).full1 == c.full1 && Apply(s, e).full2 == c.full2
  {
  }

  lemma ApplyExact(s: State, e: Step)
    requires Enabled(s, e) && CpusOk(s) && AllHarmless(s) && Exact(s) && Carries(s, e)
    ensures Exact(Apply(s, e))
  {
    if Ends(s, e) {
      EndsCounts(s, e);
      CountExactIff(s, s.cpus[e.cpu].lo, s.cpus[e.cpu].hi);
    } else {
      SameCounts(s, e);
    }
  }

  lemma CountedKept(s: State, s': State, c: Cpu)
    requires s.full2 <= s'.full2 && Counted(s, c)
    ensures Counted(s', c)
  {
  }

  lemma NextCounted(s: State, c: Cpu)
    requires CpuOk(c) && !c.phase.Idle? && Counted(s, c) && (c.phase.SmallUp? && c.phase.next >= c.hi ==> c.kind.Query?)
    ensures Counted(s, c.(phase := Next(s, c)))
  {
  }

  lemma EndsCounted(s: State, e: Step)
    requires Enabled(s, e) && Ends(s, e)
    ensures Counted(Apply(s, e), Apply(s, e).cpus[e.cpu])
  {
    var c := s.cpus[e.cpu];
    forall i | c.lo <= i < c.hi
      ensures i in Apply(s, e).full2
    {
      assert Within(c.lo, i, c.hi);
    }
  }

  lemma CountedOwn(s: State, e: Step)
    requires Enabled(s, e) && CpusOk(s) && AllHarmless(s) && Exact(s) && Counted(s, s.cpus[e.cpu])
    ensures Counted(Apply(s, e), Apply(s, e).cpus[e.cpu])
  {
    if Ends(s, e) {
      EndsCounted(s, e);
    } else {
      if e.Go? {
        NextCounted(s, s.cpus[e.cpu]);
      }
      SameCounts(s, e);
      CountedKept(s, Apply(s, e), Apply(s, e).cpus[e.cpu]);
    }
  }

  lemma CountsGrow(s: State, e: Step)
    requires Enabled(s, e) && CpusOk(s) && AllHarmless(s) && Exact(s)
    ensures s.full2 <= Apply(s, e).full2
  {
    if Ends(s, e) {
      EndsCounts(s, e);
    } else {
      SameCounts(s, e);
    }
  }

  lemma ApplyCounted(s: State, e: Step)
    requires Enabled(s, e) && CpusOk(s) && AllHarmless(s) && Exact(s) && AllCounted(s)
    ensures AllCounted(Apply(s, e))
  {
    var s' := Apply(s, e);
    CountsGrow(s, e);
    ApplyOthers(s, e);
    CountedOwn(s, e);
    forall a | 0 <= a < |s'.cpus| && a != e.cpu
      ensures Counted(s', s'.cpus[a])
    {
      CountedKept(s, s', s.cpus[a]);
    }
  }

  /** Processor k moves, and with it the level-2 bits that can be reached. */
  ghost predicate SmallFollows(s: State, s': State, k: nat)
  {
    && Others(s, s', k)
    && (forall i: nat :: OwnsSmall(s'.cpus[k], i) ==> OwnsSmall(s.cpus[k], i) || (TableOf(s, i), i) !in s.small)
    && (forall i: nat :: (TableOf(s, i), i) in s.small && !OwnsSmall(s.cpus[k], i) ==> (TableOf(s', i), i) in s'.small)
    && (forall i: nat :: OwnsSmall(s'.cpus[k], i) ==> (TableOf(s', i), i) in s'.small)
    && (forall t, i :: (t, i) in s'.small ==> t == TableOf(s', i))
  }

  lemma SmallExactKept(s: State, s': State, k: nat)
    requires SmallExact(s) && SmallExclusive(s) && SmallFollows(s, s', k)
    ensures SmallExact(s')
  {
    forall i: nat, a | 0 <= a < |s'.cpus| && OwnsSmall(s'.cpus[a], i)
      ensures (TableOf(s', i), i) in s'.small
    {
      if a != k {
        assert OwnsSmall(s.cpus[a], i) && (TableOf(s, i), i) in s.small;
        var lo, hi := if a < k then a else k, if a < k then k else a;
        assert !(OwnsSmall(s.cpus[lo], i) && OwnsSmall(s.cpus[hi], i));
      }
    }
  }

  lemma SmallExclusiveKept(s: State, s': State, k: nat)
    requires SmallExact(s) && SmallExclusive(s) && SmallFollows(s, s', k)
    ensures SmallExclusive(s')
  {
    forall i: nat, a, b | 0 <= a < b < |s'.cpus|
      ensures !(OwnsSmall(s'.cpus[a], i) && OwnsSmall(s'.cpus[b], i))
    {
      assert !(OwnsSmall(s.cpus[a], i) && OwnsSmall(s.cpus[b], i));
      assert a != k && OwnsSmall(s.cpus[a], i) ==> (TableOf(s, i), i) in s.small;
      assert b != k && OwnsSmall(s.cpus[b], i) ==> (TableOf(s, i), i) in s.small;
    }
  }

  /** A table is taken away only when nothing is held in it. */
  lemma DropsNothing(s: State, e: Step, i: nat, a: nat)
    requires Enabled(s, e) && CpusOk(s) && BigExclusive(s) && Exact(s) && AllCounted(s) && Drops(s, e, Mid(i)) && a < |s.cpus|
    ensures !OwnsSmall(s.cpus[a], i)
  {
    var c := s.cpus[a];
    DropsOwned(s, e, i);
    var lo, hi := if a < e.cpu then a else e.cpu, if a < e.cpu then e.cpu else a;
    assert a != e.cpu ==> !(OwnsBig(s.cpus[lo], Big(i)) && OwnsBig(s.cpus[hi], Big(i)));
    assert Counted(s, c);
    if c.lo <= i < c.hi {
      BigMono(c.lo, i);
      BigMono(i, c.hi - 1);
    }
  }

  lemma DropsNoBit(s: State, e: Step, i: nat)
    requires Enabled(s, e) && CpusOk(s) && BigExclusive(s) && Exact(s) && AllCounted(s) && SmallHeld(s) && Drops(s, e, Mid(i))
    ensures (TableOf(s, i), i) !in s.small
  {
    if (TableOf(s, i), i) in s.small {
      var a :| 0 <= a < |s.cpus| && OwnsSmall(s.cpus[a], i);
      DropsNothing(s, e, i, a);
    }
  }

  /** What is held elsewhere stays locked, in the table that is there. */
  lemma ApplyReach(s: State, e: Step)
    requires Enabled(s, e) && CpusOk(s) && AllHarmless(s) && BigExclusive(s) && Exact(s) && AllCounted(s) && SmallHeld(s)
    ensures forall i: nat :: (TableOf(s, i), i) in s.small ==> TableOf(Apply(s, e), i) == TableOf(s, i)
  {
    ApplyTables(s, e);
    forall i: nat | (TableOf(s, i), i) in s.small
      ensures TableOf(Apply(s, e), i) == TableOf(s, i)
    {
      if Drops(s, e, Mid(i)) {
        DropsNoBit(s, e, i);
      }
    }
  }

  lemma ApplyFollows(s: State, e: Step)
    requires CpusOk(s) && AllSee(s) && Enabled(s, e) && SmallExact(s)
    requires forall i: nat :: (TableOf(s, i), i) in s.small ==> TableOf(Apply(s, e), i) == TableOf(s, i)
    ensures SmallFollows(s, Apply(s, e), e.cpu)
  {
    if e.Go? && s.cpus[e.cpu].phase.SmallUp? {
      TakeFollows(s, e.cpu);
    } else if e.Go? && (s.cpus[e.cpu].phase.SmallBack? || s.cpus[e.cpu].phase.SmallDown?) {
      GiveFollows(s, e.cpu);
    } else {
      StillOwns(s, e);
      StillFollows(s, e);
    }
  }

  lemma TakeFollows(s: State, k: nat)
    requires Enabled(s, Go(k)) && CpusOk(s) && SmallExact(s) && s.cpus[k].phase.SmallUp? && Sees(s, s.cpus[k])
    ensures SmallFollows(s, GoStep(s, k), k)
  {
    var s' := GoStep(s, k);
    forall i: nat
      ensures TableOf(s', i) == TableOf(s, i)
    {
    }
  }

  lemma GiveFollows(s: State, k: nat)
    requires Enabled(s, Go(k)) && CpusOk(s) && SmallExact(s) && (s.cpus[k].phase.SmallBack? || s.cpus[k].phase.SmallDown?)
    ensures SmallFollows(s, GoStep(s, k), k)
  {
    var s' := GoStep(s, k);
    forall i: nat
      ensures TableOf(s', i) == TableOf(s, i)
    {
    }
  }

  lemma StillOwns(s: State, e: Step)
    requires Enabled(s, e) && CpusOk(s)
    requires e.Go? ==> !s.cpus[e.cpu].phase.SmallUp? && !s.cpus[e.cpu].phase.SmallBack? && !s.cpus[e.cpu].phase.SmallDown?
    ensures Apply(s, e).small == s.small
    ensures forall i: nat :: OwnsSmall(s.cpus[e.cpu], i) <==> OwnsSmall(Apply(s, e).cpus[e.cpu], i)
  {
    if e.Go? {
      GoStillOwns(s, s.cpus[e.cpu]);
    }
  }

  lemma GoStillOwns(s: State, c: Cpu)
    requires CpuOk(c) && !c.phase.Idle? && !c.phase.SmallUp? && !c.phase.SmallBack? && !c.phase.SmallDown?
    ensures Tree(s, c).small == s.small
    ensures forall i: nat :: OwnsSmall(c, i) <==> OwnsSmall(c.(phase := Next(s, c)), i)
  {
  }

  lemma StillFollows(s: State, e: Step)
    requires Enabled(s, e) && CpusOk(s) && SmallExact(s) && Apply(s, e).small == s.small
    requires forall i: nat :: (TableOf(s, i), i) in s.small ==> TableOf(Apply(s, e), i) == TableOf(s, i)
    requires forall i: nat :: OwnsSmall(s.cpus[e.cpu], i) <==> OwnsSmall(Apply(s, e).cpus[e.cpu], i)
    ensures SmallFollows(s, Apply(s, e), e.cpu)
  {
    ApplyOthers(s, e);
  }

  ghost predicate Inv2(s: State)
  {
    Inv(s) && Exact(s) && AllCounted(s) && SmallExact(s) && SmallExclusive(s)
  }

  lemma ApplyInv2(s: State, e: Step)
    requires Inv2(s) && Enabled(s, e) && Careful(s, e) && Carries(s, e)
    ensures Inv2(Apply(s, e))
  {
    ApplyInv(s, e);
    ApplyExact(s, e);
    ApplyCounted(s, e);
    ApplyReach(s, e);
    ApplyFollows(s, e);
    SmallExactKept(s, Apply(s, e), e.cpu);
    SmallExclusiveKept(s, Apply(s, e), e.cpu);
  }

  /** Up to moment n, every insertion that succeeds leaves counts exact. */
  ghost predicate CarriedRun(run: seq<State>, steps: seq<Step>, n: nat)
    requires IsRun(run, steps)
  {
    forall i {:trigger steps[i]} :: 0 <= i < n && i < |steps| ==> Carries(run[i], steps[i])
  }

  lemma {:induction false} RunInv2(run: seq<State>, steps: seq<Step>, i: nat)
    requires IsRun(run, steps) && i < |run| && CarefulRun(run, steps, i) && CarriedRun(run, steps, i)
    ensures Inv2(run[i])
  {
    if i == 0 {
      StartInv(run[0]);
    } else {
      RunInv2(run, steps, i - 1);
      ApplyInv2(run[i - 1], steps[i - 1]);
    }
  }

  /** Then two processors never hold the same level-2 entry, whatever they are doing. */
  lemma RangesExclusive(run: seq<State>, steps: seq<Step>, i: nat, a: nat, b: nat, e: nat)
    requires IsRun(run, steps) && i < |run| && CarefulRun(run, steps, i) && CarriedRun(run, steps, i)
    requires a < |run[i].cpus| && b < |run[i].cpus| && a != b
    ensures !(OwnsSmall(run[i].cpus[a], e) && OwnsSmall(run[i].cpus[b], e))
    ensures OwnsSmall(run[i].cpus[a], e) ==> (TableOf(run[i], e), e) in run[i].small
  {
    RunInv2(run, steps, i);
    var lo, hi := if a < b then a else b, if a < b then b else a;
    assert !(OwnsSmall(run[i].cpus[lo], e) && OwnsSmall(run[i].cpus[hi], e));
  }
}

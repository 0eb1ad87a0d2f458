/**
 vmm_radix_tree.c: what becomes of range locks when an insertion fails or succeeds in a way that RangeLocks does not
 allow for.
 */
module RangeLockRaces {

  import opened RangeLocks

  // ---------------------------------------------------------------------------------------------
  // Sequences of steps
  // ---------------------------------------------------------------------------------------------

  /** Steps lead from s to t. */
  ghost predicate Leads(s: State, t: State)
  {
    exists run, steps :: IsPath(run, steps) && run[0] == s && run[|run| - 1] == t
  }

  lemma LeadsNowhere(s: State)
    ensures Leads(s, s)
  {
    assert IsPath([s], []);
  }

  /** Taking one step and going on. */
  lemma LeadsOn(s: State, e: Step, t: State)
    requires Enabled(s, e) && Leads(Apply(s, e), t)
    ensures Leads(s, t)
  {
    var run, steps :| IsPath(run, steps) && run[0] == Apply(s, e) && run[|run| - 1] == t;
    assert IsPath([s] + run, [e] + steps);
  }

  lemma {:induction false} LeadsFar(run: seq<State>, steps: seq<Step>, t: State)
    requires IsPath(run, steps) && Leads(run[|run| - 1], t)
    ensures Leads(run[0], t)
    decreases |steps|
  {
    if steps != [] {
      assert IsPath(run[1..], steps[1..]);
      LeadsFar(run[1..], steps[1..], t);
      LeadsOn(run[0], steps[0], t);
    }
  }

  lemma LeadsTrans(s: State, t: State, u: State)
    requires Leads(s, t) && Leads(t, u)
    ensures Leads(s, u)
  {
    var run, steps :| IsPath(run, steps) && run[0] == s && run[|run| - 1] == t;
    LeadsFar(run, steps, u);
  }

  // ---------------------------------------------------------------------------------------------
  // What is below one level-0 entry
  // ---------------------------------------------------------------------------------------------

  /** All lock bits below level-0 entry x are in tables that are older than the one there, or that one. */
  ghost predicate Upto(s: State, x: nat) { forall t, i :: (t, i) in s.small && Big(i) == x ==> t.root <= Get(s.roots, x) }

  /** They are in older tables. */
  ghost predicate Renewed(s: State, x: nat) { forall t, i :: (t, i) in s.small && Big(i) == x ==> t.root < Get(s.roots, x) }

  /** There is nothing below level-0 entry x. */
  ghost predicate Bare(s: State, x: nat)
  {
    && x !in s.full0 && x !in s.valid0 && x !in s.kids0
    && (forall y: nat :: Over(y) == x ==> y !in s.kids1 && y !in s.valid1 && y !in s.full1)
    && (forall i: nat :: Big(i) == x ==> i !in s.full2)
  }

  /** What is below level-0 entry x is as before. */
  ghost predicate SameBelow(s: State, t: State, x: nat)
  {
    && Get(t.roots, x) == Get(s.roots, x)
    && (x in t.full0 <==> x in s.full0) && (x in t.valid0 <==> x in s.valid0) && (x in t.kids0 <==> x in s.kids0)
    && (forall y: nat :: Over(y) == x ==> (y in t.kids1 <==> y in s.kids1) && (y in t.valid1 <==> y in s.valid1) && (y in t.full1 <==> y in s.full1))
    && (forall i: nat :: Big(i) == x ==> (i in t.full2 <==> i in s.full2))
  }

  // ---------------------------------------------------------------------------------------------
  // Rolling back
  // ---------------------------------------------------------------------------------------------

  /** A failed insertion that will come to x and overwrite it. */
  ghost predicate Dooms(s: State, k: nat, x: nat)
  {
    && k < |s.cpus| && CpuOk(s.cpus[k]) && s.cpus[k].kind.Insert? && ToUndo(s.cpus[k], x)
    && x !in s.full0 && x < USER && x in s.kids0 && Upto(s, x)
  }

  function Ahead(c: Cpu): nat
  {
    match c.phase
    case SmallBack(n) => n + c.hi + 2 * c.hi + 4
    case TableBack(n) => n + c.hi + 2
    case RootBack(n) => n
    case _ => 0
  }

  /** Looks at level-0 entries only from here on. */
  predicate PastTables(c: Cpu) { c.phase.RootBack? || (c.phase.TableBack? && c.phase.next == FirstMid(c)) }

  lemma DoomsLess(s: State, k: nat, x: nat)
    requires Dooms(s, k, x)
    ensures Enabled(s, Go(k)) && Ahead(GoStep(s, k).cpus[k]) < Ahead(s.cpus[k])
  {
  }

  lemma DoomsOn(s: State, k: nat, x: nat)
    requires Dooms(s, k, x) && Enabled(s, Go(k)) && s.cpus[k].phase != RootBack(x + 1)
    ensures Dooms(GoStep(s, k), k, x)
  {
  }

  lemma DoomsFrame(s: State, k: nat, x: nat)
    requires Dooms(s, k, x) && Enabled(s, Go(k)) && PastTables(s.cpus[k])
    ensures PastTables(GoStep(s, k).cpus[k])
    ensures GoStep(s, k).small == s.small && GoStep(s, k).tables == s.tables && GoStep(s, k).freed == s.freed
    ensures s.cpus[k].phase != RootBack(x + 1) ==> Get(GoStep(s, k).roots, x) == Get(s.roots, x)
  {
  }

  lemma DoomsHits(s: State, k: nat, x: nat)
    requires Dooms(s, k, x) && Enabled(s, Go(k)) && s.cpus[k].phase == RootBack(x + 1)
    ensures var t := GoStep(s, k);
            && t.cpus[k].phase == RootBack(x) && x !in t.big && Bare(t, x) && Renewed(t, x) && Get(t.roots, x) == Get(s.roots, x) + 1
  {
  }

  lemma {:induction false} RollsOver(s: State, k: nat, x: nat) returns (t: State)
    requires Dooms(s, k, x)
    ensures Leads(s, t) && t.cpus == s.cpus[k := s.cpus[k].(phase := RootBack(x))] && x !in t.big && Bare(t, x) && Renewed(t, x)
    ensures PastTables(s.cpus[k]) ==>
              t.small == s.small && t.tables == s.tables && t.freed == s.freed && Get(t.roots, x) == Get(s.roots, x) + 1
    decreases Ahead(s.cpus[k])
  {
    DoomsLess(s, k, x);
    if PastTables(s.cpus[k]) {
      DoomsFrame(s, k, x);
    }
    if s.cpus[k].phase == RootBack(x + 1) {
      DoomsHits(s, k, x);
      t := GoStep(s, k);
      LeadsNowhere(t);
    } else {
      DoomsOn(s, k, x);
      t := RollsOver(GoStep(s, k), k, x);
    }
    LeadsOn(s, Go(k), t);
  }

  function Landing(c: Cpu): Phase { if c.phase.BigDown? && c.phase.won then Holding else Idle }

  /** The level-0 part of leaving: entries of the range are unlocked, and those already looked at keep what is below them. */
  ghost predicate RolledBack(s: State, t: State, k: nat)
    requires k < |s.cpus|
  {
    && t.cpus == s.cpus[k := s.cpus[k].(phase := Landing(s.cpus[k]))]
    && (forall x: nat :: x in t.big <==> x in s.big && !OwnsBig(s.cpus[k], x))
    && t.small == s.small && t.tables == s.tables && t.freed == s.freed
    && (forall x: nat :: s.cpus[k].kind.Query? || !ToUndo(s.cpus[k], x) ==> SameBelow(s, t, x))
    && (s.cpus[k].kind.Query? || s.cpus[k].phase.BigDown? ==> t == s.(big := t.big, cpus := t.cpus))
  }

  ghost predicate Leaving(c: Cpu) { CpuOk(c) && (c.phase.RootBack? || c.phase.BigDown?) }

  predicate Landed(c: Cpu) { c.phase.Idle? || c.phase.Holding? }

  function StepsLeft(c: Cpu): nat
    requires c.hi > 0
  {
    match c.phase
    case RootBack(n) => LastBig(c) + 2 + n
    case BigDown(n, won) => n + 1
    case _ => 0
  }

  lemma LeavingOn(s: State, k: nat)
    requires k < |s.cpus| && Leaving(s.cpus[k])
    ensures Enabled(s, Go(k))
    ensures Landed(GoStep(s, k).cpus[k]) || (Leaving(GoStep(s, k).cpus[k]) && StepsLeft(GoStep(s, k).cpus[k]) < StepsLeft(s.cpus[k]))
  {
    BigMono(s.cpus[k].lo, s.cpus[k].hi - 1);
  }

  /** One step of leaving. */
  lemma LeavingStep(s: State, k: nat)
    requires k < |s.cpus| && Leaving(s.cpus[k]) && Enabled(s, Go(k))
    ensures var c, c', t := s.cpus[k], GoStep(s, k).cpus[k], GoStep(s, k);
            && t.cpus == s.cpus[k := c'] && Landing(c') == (if c'.phase.Holding? then Idle else Landing(c)) && c'.kind == c.kind
            && t.small == s.small && t.tables == s.tables && t.freed == s.freed
            && (c.kind.Query? || c.phase.BigDown? ==> t == s.(big := t.big, cpus := t.cpus))
            && (c.phase.BigDown? ==> !c'.phase.RootBack?)
  {
  }

  lemma LeavingBelow(s: State, k: nat, x: nat)
    requires k < |s.cpus| && Leaving(s.cpus[k]) && Enabled(s, Go(k))
    ensures ToUndo(GoStep(s, k).cpus[k], x) ==> ToUndo(s.cpus[k], x)
    ensures s.cpus[k].kind.Query? || !ToUndo(s.cpus[k], x) ==> SameBelow(s, GoStep(s, k), x)
  {
  }

  lemma LeavingBig(s: State, k: nat, x: nat)
    requires k < |s.cpus| && Leaving(s.cpus[k]) && Enabled(s, Go(k))
    ensures x in GoStep(s, k).big && !OwnsBig(GoStep(s, k).cpus[k], x) <==> x in s.big && !OwnsBig(s.cpus[k], x)
    ensures Landed(GoStep(s, k).cpus[k]) ==> !OwnsBig(GoStep(s, k).cpus[k], x)
  {
    BigMono(s.cpus[k].lo, s.cpus[k].hi - 1);
  }

  lemma LeavingLast(s: State, k: nat)
    requires k < |s.cpus| && Leaving(s.cpus[k]) && Enabled(s, Go(k)) && Landed(GoStep(s, k).cpus[k])
    ensures RolledBack(s, GoStep(s, k), k)
  {
    LeavingStep(s, k);
    forall x: nat
      ensures x in GoStep(s, k).big <==> x in s.big && !OwnsBig(s.cpus[k], x)
      ensures s.cpus[k].kind.Query? || !ToUndo(s.cpus[k], x) ==> SameBelow(s, GoStep(s, k), x)
    {
      LeavingBig(s, k, x);
      LeavingBelow(s, k, x);
    }
  }

  lemma LeavingMore(s: State, k: nat, t: State)
    requires k < |s.cpus| && Leaving(s.cpus[k]) && Enabled(s, Go(k)) && Leaving(GoStep(s, k).cpus[k]) && RolledBack(GoStep(s, k), t, k)
    ensures RolledBack(s, t, k)
  {
    LeavingStep(s, k);
    forall x: nat
      ensures x in t.big <==> x in s.big && !OwnsBig(s.cpus[k], x)
      ensures s.cpus[k].kind.Query? || !ToUndo(s.cpus[k], x) ==> SameBelow(s, t, x)
    {
      LeavingBig(s, k, x);
      LeavingBelow(s, k, x);
    }
  }

  lemma {:induction false} Leaves(s: State, k: nat) returns (t: State)
    requires k < |s.cpus| && Leaving(s.cpus[k])
    ensures Leads(s, t) && RolledBack(s, t, k)
    decreases StepsLeft(s.cpus[k])
  {
    LeavingOn(s, k);
    t := GoStep(s, k);
    if Landed(t.cpus[k]) {
      LeavingLast(s, k);
      LeadsNowhere(t);
    } else {
      t := Leaves(t, k);
      LeavingMore(s, k, t);
    }
    LeadsOn(s, Go(k), t);
  }

  /** A failed insertion that has overwritten x and not unlocked it yet. */
  ghost predicate Backing(c: Cpu, x: nat)
  {
    CpuOk(c) && c.kind.Insert? && c.phase == RootBack(x) && FirstBig(c) <= x <= LastBig(c)
  }

  /** It leaves, and what is below x stays. */
  lemma BackingLeaves(s: State, k: nat, x: nat) returns (t: State)
    requires k < |s.cpus| && Backing(s.cpus[k], x)
    ensures Leads(s, t) && |t.cpus| == |s.cpus| && t.cpus == s.cpus[k := t.cpus[k]] && t.cpus[k].phase.Idle?
    ensures x !in t.big && SameBelow(s, t, x) && t.small == s.small && t.tables == s.tables && t.freed == s.freed
  {
    assert OwnsBig(s.cpus[k], x) && !ToUndo(s.cpus[k], x);
    t := Leaves(s, k);
  }

  // ---------------------------------------------------------------------------------------------
  // Going down
  // ---------------------------------------------------------------------------------------------

  /** Level-2 entry i is not locked in the table that is there. */
  ghost predicate Clear(s: State, i: nat) { (TableOf(s, i), i) !in s.small }

  predicate IdleAt(s: State, j: nat) { j < |s.cpus| && s.cpus[j].phase.Idle? }

  /** A range below one level-0 entry. */
  predicate OneBand(lo: nat, hi: nat) { lo < hi && Big(lo) == Big(hi - 1) }

  /** An insertion has taken its only level-0 entry and is at its first level-2 entry. */
  function Descended(s: State, j: nat, lo: nat, hi: nat): State
    requires j < |s.cpus| && lo < hi
  {
    Put(Ensured(s.(big := s.big + {Big(lo)}), Cpu(Insert, lo, hi, Tables), Big(hi - 1) + 1, Mid(hi - 1) + 1), j,
        Cpu(Insert, lo, hi, SmallUp(lo, TableOf(s, lo))))
  }

  lemma AtTables(s: State, j: nat, kind: Kind, lo: nat, hi: nat) returns (t: State)
    requires IdleAt(s, j) && OneBand(lo, hi) && Big(lo) !in s.big
    ensures Leads(s, t) && t == Put(s.(big := s.big + {Big(lo)}), j, Cpu(kind, lo, hi, Tables))
  {
    var s1 := Apply(s, Begin(j, kind, lo, hi));
    t := Apply(s1, Go(j));
    LeadsNowhere(t);
    LeadsOn(s1, Go(j), t);
    LeadsOn(s, Begin(j, kind, lo, hi), t);
  }

  lemma Descends(s: State, j: nat, lo: nat, hi: nat) returns (t: State)
    requires IdleAt(s, j) && OneBand(lo, hi) && Big(lo) !in s.big
    ensures Leads(s, t) && t == Descended(s, j, lo, hi)
  {
    var s1 := AtTables(s, j, Insert, lo, hi);
    t := Apply(s1, Go(j));
    LeadsNowhere(t);
    LeadsOn(s1, Go(j), t);
    LeadsTrans(s, s1, t);
  }

  lemma InEntries(lo: nat, hi: nat, i: nat)
    ensures i in Entries(lo, hi) <==> lo <= i < hi
  {
    assert lo <= i < hi ==> Within(lo, i, hi);
  }

  /** What an insertion on its way down adds below a level-0 entry: tables. */
  lemma DescendedTables(s: State, j: nat, lo: nat, hi: nat, y: nat)
    requires j < |s.cpus| && OneBand(lo, hi)
    ensures Big(lo) < USER ==> Big(lo) in Descended(s, j, lo, hi).kids0
    ensures y in Descended(s, j, lo, hi).kids1 <==> y in s.kids1 || Mid(lo) <= y <= Mid(hi - 1)
  {
    InEntries(Big(lo), Big(lo) + 1, Big(lo));
    InEntries(Mid(lo), Mid(hi - 1) + 1, y);
  }

  /** An insertion at a level-2 entry that is not locked takes it. */
  lemma TakesNext(s: State, j: nat) returns (t: State)
    requires j < |s.cpus| && Inserts(s.cpus[j]) && s.cpus[j].phase.SmallUp? && s.cpus[j].phase.next < s.cpus[j].hi && !Waits(s, s.cpus[j])
    ensures var c, n, seen := s.cpus[j], s.cpus[j].phase.next, s.cpus[j].phase.seen;
            && Leads(s, t)
            && t == Put(s.(small := s.small + {(seen, n)}), j, c.(phase := SmallUp(n + 1, if n + 1 < c.hi then TableOf(s, n + 1) else seen)))
  {
    t := Apply(s, Go(j));
    LeadsNowhere(t);
    LeadsOn(s, Go(j), t);
  }

  /** An insertion comes down and takes its first level-2 entry. */
  lemma TakesFirst(s: State, j: nat, lo: nat, hi: nat) returns (t: State)
    requires IdleAt(s, j) && OneBand(lo, hi) && Big(lo) !in s.big && Clear(s, lo)
    ensures Leads(s, t) && t == Descended(s, j, lo, hi).(small := s.small + {(TableOf(s, lo), lo)}, cpus := t.cpus)
    ensures t.cpus == s.cpus[j := Cpu(Insert, lo, hi, SmallUp(lo + 1, TableOf(s, if lo + 1 < hi then lo + 1 else lo)))]
  {
    var s1 := Descends(s, j, lo, hi);
    t := TakesNext(s1, j);
    LeadsTrans(s, s1, t);
  }

  /** An insertion has succeeded and given its level-0 entries back. */
  ghost predicate Accepted(s: State, j: nat, t: State)
  {
    && j < |s.cpus| && s.cpus[j].lo < s.cpus[j].hi
    && t == Count(s, s.cpus[j].lo, s.cpus[j].hi).(big := t.big, cpus := s.cpus[j := s.cpus[j].(phase := Holding)])
    && (forall x: nat :: x in t.big <==> x in s.big && !OwnsBig(s.cpus[j], x))
  }

  predicate AllTaken(c: Cpu) { CpuOk(c) && c.phase.SmallUp? && c.phase.next == c.hi && c.kind.Insert? }

  /** With all of its level-2 entries, an insertion succeeds. */
  lemma Accepts(s: State, j: nat) returns (t: State)
    requires j < |s.cpus| && AllTaken(s.cpus[j])
    ensures Enabled(s, Go(j)) && Leads(Apply(s, Go(j)), t) && Leads(s, t) && Accepted(s, j, t)
  {
    BigMono(s.cpus[j].lo, s.cpus[j].hi - 1);
    var s1 := Apply(s, Go(j));
    t := Leaves(s1, j);
    LeadsOn(s, Go(j), t);
  }

  /** Fields that success leaves alone. */
  lemma AcceptedSame(s: State, k: nat, t: State)
    requires Accepted(s, k, t)
    ensures t.small == s.small && t.tables == s.tables && t.roots == s.roots && t.kids1 == s.kids1 && t.cpus == s.cpus[k := s.cpus[k].(phase := Holding)]
  {
  }

  /** An insertion of one level-2 entry, alone, succeeds. */
  lemma Acquires(s: State, j: nat, i: nat) returns (t: State)
    requires IdleAt(s, j) && Big(i) !in s.big && Clear(s, i)
    ensures Leads(s, t) && t.cpus == s.cpus[j := Cpu(Insert, i, i + 1, Holding)]
  {
    var s1 := TakesFirst(s, j, i, i + 1);
    t := Accepts(s1, j);
    LeadsTrans(s, s1, t);
  }

  /** A processor gives its only level-2 entry back. */
  lemma GivesBack(s: State, j: nat) returns (t: State)
    requires j < |s.cpus| && s.cpus[j].phase.Holding? && s.cpus[j].hi == s.cpus[j].lo + 1
    ensures Leads(s, t) && t.cpus == s.cpus[j := s.cpus[j].(phase := Idle)]
  {
    var s1 := Apply(s, Go(j));
    var s2 := Apply(s1, Go(j));
    t := Apply(s2, Go(j));
    LeadsNowhere(t);
    LeadsOn(s2, Go(j), t);
    LeadsOn(s1, Go(j), t);
    LeadsOn(s, Go(j), t);
  }

  // ---------------------------------------------------------------------------------------------
  // A query that fails at a level-2 entry
  // ---------------------------------------------------------------------------------------------

  lemma QueryDescends(s: State, a: nat, i: nat) returns (t: State)
    requires IdleAt(s, a) && Big(i) !in s.big && Big(i) in s.valid0 && Mid(i) in s.valid1
    ensures Leads(s, t) && t == Put(s.(big := s.big + {Big(i)}), a, Cpu(Query, i, i + 1, SmallUp(i, TableOf(s, i))))
  {
    var s1 := AtTables(s, a, Query, i, i + 1);
    assert FirstOut(s1.valid0, Big(i), Big(i) + 1) == Big(i) + 1 && FirstOut(s1.valid1, Mid(i), Mid(i) + 1) == Mid(i) + 1;
    t := Apply(s1, Go(a));
    LeadsNowhere(t);
    LeadsOn(s1, Go(a), t);
    LeadsTrans(s, s1, t);
  }

  /** A query of an entry that is not valid, below entries that are, gives the lock back and looks at the level-1 entry above. */
  lemma QueryFails(s: State, a: nat, i: nat) returns (t: State)
    requires IdleAt(s, a) && Big(i) !in s.big && Big(i) in s.valid0 && Mid(i) in s.valid1 && Clear(s, i) && i !in s.full2
    ensures Leads(s, t) && t == Put(s.(big := s.big + {Big(i)}), a, Cpu(Query, i, i + 1, TableBack(Mid(i) + 1)))
  {
    var s1 := QueryDescends(s, a, i);
    var s2 := Apply(s1, Go(a));
    t := Apply(s2, Go(a));
    LeadsNowhere(t);
    LeadsOn(s2, Go(a), t);
    LeadsOn(s1, Go(a), t);
    LeadsTrans(s, s1, t);
  }

  /** Rolling back, it takes the table of the only level-1 entry of its range away, and leaves. */
  lemma Robs(s: State, a: nat, y: nat) returns (t: State)
    requires a < |s.cpus| && CpuOk(s.cpus[a]) && s.cpus[a].kind.Query? && s.cpus[a].phase == TableBack(y + 1) && FirstMid(s.cpus[a]) == y
    requires y !in s.full1 && y in s.kids1
    ensures Leads(s, t) && t == DropTable(s, y).(big := t.big, cpus := s.cpus[a := s.cpus[a].(phase := Idle)])
    ensures forall x: nat :: x in t.big <==> x in s.big && !OwnsBig(s.cpus[a], x)
  {
    BigMono(s.cpus[a].lo, s.cpus[a].hi - 1);
    var s1 := Apply(s, Go(a));
    var s2 := Apply(s1, Go(a));
    t := Leaves(s2, a);
    LeadsOn(s1, Go(a), t);
    LeadsOn(s, Go(a), t);
  }

  // ---------------------------------------------------------------------------------------------
  // A failed insertion that overwrites a level-0 entry
  // ---------------------------------------------------------------------------------------------

  /** After moment n of the run an insertion fails that touches a level-0 entry of the user half that counts nothing. */
  ghost predicate CarelessAfter(run: seq<State>, steps: seq<Step>, e: Step)
  {
    IsRun(run, steps) && CarefulRun(run, steps, |steps|) && Enabled(run[|steps|], e) && !Careful(run[|steps|], e)
  }

  lemma CarelessDooms(s: State, e: Step) returns (x: nat)
    requires Inv(s) && Enabled(s, e) && !Careful(s, e)
    ensures Dooms(Apply(s, e), e.cpu, x) && FreedOld(Apply(s, e))
  {
    x :| ToUndo(Apply(s, e).cpus[e.cpu], x) && !Spared(s, x);
    ApplyBig(s, e);
    ApplyRooted(s, e);
    ApplyNoneAhead(s, e);
    ApplyFreed(s, e);
    assert Rooting(Apply(s, e).cpus[e.cpu], x);
    assert Rooted(Apply(s, e), Apply(s, e).cpus[e.cpu]);
  }

  /** Processor j is below x, alone in new tables, with its first n level-2 entries from lo on; processor k is idle again. */
  ghost predicate SlippedIn(s: State, t: State, k: nat, x: nat, j: nat, lo: nat, hi: nat, n: nat)
  {
    && k < |s.cpus| && j < |s.cpus| && k != j && lo < hi && |t.cpus| == |s.cpus|
    && t.cpus[k].phase.Idle? && t.cpus == s.cpus[k := t.cpus[k]][j := t.cpus[j]]
    && t.cpus[j].kind.Insert? && t.cpus[j].lo == lo && t.cpus[j].hi == hi && t.cpus[j].phase.SmallUp? && t.cpus[j].phase.next == lo + n
    && (lo + n < hi ==> t.cpus[j].phase.seen == TableOf(t, lo + n))
    && x !in t.big && x !in t.full0 && Upto(t, x)
    && (forall y: nat :: Over(y) == x ==> y !in t.full1 && (y in t.kids1 <==> Mid(lo) <= y <= Mid(hi - 1)))
    && (forall i: nat :: Big(i) == x ==> i !in t.full2)
    && (forall i: nat :: Big(i) == x ==> (Clear(t, i) <==> !(lo <= i < lo + n)))
  }

  lemma SlipsIn(s: State, k: nat, x: nat, j: nat, lo: nat, hi: nat) returns (t: State)
    requires Dooms(s, k, x) && IdleAt(s, j) && OneBand(lo, hi) && Big(lo) == x
    ensures Leads(s, t) && SlippedIn(s, t, k, x, j, lo, hi, 1)
  {
    var s1 := RollsOver(s, k, x);
    assert Backing(s1.cpus[k], x);
    var s2 := TakesFirst(s1, j, lo, hi);
    t := BackingLeaves(s2, k, x);
    LeadsTrans(s1, s2, t);
    LeadsTrans(s, s1, t);
    SlipsBelow(s1, j, lo, hi, s2, t);
  }

  /** Taking the first level-2 entry below a bare level-0 entry, seen from below that. */
  lemma SlipsBelow(s: State, j: nat, lo: nat, hi: nat, s': State, t: State)
    requires j < |s.cpus| && OneBand(lo, hi) && Bare(s, Big(lo)) && Renewed(s, Big(lo))
    requires s' == Descended(s, j, lo, hi).(small := s.small + {(TableOf(s, lo), lo)}, cpus := s'.cpus)
    requires SameBelow(s', t, Big(lo)) && t.small == s'.small && t.tables == s'.tables
    ensures forall y: nat :: Over(y) == Big(lo) ==> y !in t.full1 && (y in t.kids1 <==> Mid(lo) <= y <= Mid(hi - 1))
    ensures forall i: nat :: Big(i) == Big(lo) ==> i !in t.full2 && TableOf(t, i) == TableOf(s, i) && (Clear(t, i) <==> i != lo)
    ensures Big(lo) !in t.full0
  {
    forall y: nat | Over(y) == Big(lo)
      ensures y in t.kids1 <==> Mid(lo) <= y <= Mid(hi - 1)
    {
      DescendedTables(s, j, lo, hi, y);
    }
  }

  /** Processor m waits for a level-2 entry of j, which has not its range yet; both hold the level-0 entry above. */
  ghost predicate WaitsForTaker(s: State, m: nat, j: nat)
  {
    && m < |s.cpus| && j < |s.cpus| && m != j && s.cpus[m].phase.SmallUp? && Waits(s, s.cpus[m])
    && OwnsSmall(s.cpus[j], s.cpus[m].phase.next) && !Settled(s.cpus[j])
    && OwnsBig(s.cpus[j], Big(s.cpus[m].phase.next)) && OwnsBig(s.cpus[m], Big(s.cpus[m].phase.next))
  }

  lemma DoomedWait(s: State, k: nat, j: nat, m: nat, x: nat) returns (t: State)
    requires Dooms(s, k, x) && IdleAt(s, j) && IdleAt(s, m) && j != m
    ensures Leads(s, t) && WaitsForTaker(t, m, j)
  {
    var lo := x * BAND;
    assert Big(lo) == x && Big(lo + 1) == x;
    var s1 := SlipsIn(s, k, x, j, lo, lo + 2);
    t := Descends(s1, m, lo, lo + 1);
    LeadsTrans(s, s1, t);
    assert !Clear(s1, lo);
  }

  /** After a careless failure, with two idle processors, one of them can come to wait for the other, which has not its range yet. */
  lemma CarelessWaits(run: seq<State>, steps: seq<Step>, e: Step, j: nat, m: nat) returns (t: State)
    requires CarelessAfter(run, steps, e) && IdleAt(run[|steps|], j) && IdleAt(run[|steps|], m) && j != m
    ensures Leads(Apply(run[|steps|], e), t) && WaitsForTaker(t, m, j)
  {
    RunInv(run, steps, |steps|);
    var x := CarelessDooms(run[|steps|], e);
    t := DoomedWait(Apply(run[|steps|], e), e.cpu, j, m, x);
  }

  /** Two processors have level-2 entry i in use. */
  ghost predicate InUseTwice(s: State, k: nat, b: nat, i: nat)
  {
    && k < |s.cpus| && b < |s.cpus| && k != b && s.cpus[k].phase.Holding? && s.cpus[b].phase.Holding?
    && s.cpus[k].lo <= i < s.cpus[k].hi && s.cpus[b].lo <= i < s.cpus[b].hi
  }

  /** A second insertion below x fails, for want of memory below its level-2 entry, and overwrites x again. */
  lemma FailsAgain(s: State, m: nat, i: nat) returns (t: State)
    requires IdleAt(s, m) && Big(i) !in s.big && Clear(s, i) && Big(i) !in s.full0 && Big(i) < USER && Upto(s, Big(i))
    ensures Leads(s, t) && Big(i) !in t.big && Renewed(t, Big(i))
    ensures |t.cpus| == |s.cpus| && t.cpus == s.cpus[m := t.cpus[m]]
  {
    var s1 := Descends(s, m, i, i + 1);
    DescendedTables(s, m, i, i + 1, 0);
    var s2 := Apply(s1, FailSmall(m));
    t := RollsOver(s2, m, Big(i));
    LeadsOn(s1, FailSmall(m), t);
    LeadsTrans(s, s1, t);
    assert t.cpus == s.cpus[m := t.cpus[m]];
  }

  lemma DoomedShare(s: State, k: nat, j: nat, m: nat, x: nat) returns (t: State)
    requires Dooms(s, k, x) && IdleAt(s, j) && IdleAt(s, m) && j != m
    ensures Leads(s, t) && InUseTwice(t, k, j, x * BAND)
  {
    var lo := x * BAND;
    assert Big(lo) == x && Big(lo + 1) == x;
    var s1 := SlipsIn(s, k, x, j, lo, lo + 1);
    var s2 := FailsAgain(s1, m, lo + 1);
    var s3 := Acquires(s2, k, lo);
    t := Accepts(s3, j);
    LeadsTrans(s2, s3, t);
    LeadsTrans(s1, s2, t);
    LeadsTrans(s, s1, t);
  }

  /** In the same situation a level-2 entry can come to be in use twice. */
  lemma CarelessShares(run: seq<State>, steps: seq<Step>, e: Step, j: nat, m: nat) returns (t: State, i: nat)
    requires CarelessAfter(run, steps, e) && IdleAt(run[|steps|], j) && IdleAt(run[|steps|], m) && j != m
    ensures Leads(Apply(run[|steps|], e), t) && InUseTwice(t, e.cpu, j, i)
  {
    RunInv(run, steps, |steps|);
    var x := CarelessDooms(run[|steps|], e);
    t := DoomedShare(Apply(run[|steps|], e), e.cpu, j, m, x);
    i := x * BAND;
  }

  /** Processor m is at a level-2 entry of a table that has been unmapped and given back. */
  ghost predicate AtFreedTable(s: State, m: nat)
  {
    && m < |s.cpus| && s.cpus[m].phase.SmallUp? && s.cpus[m].phase.next < s.cpus[m].hi
    && (s.cpus[m].phase.seen, Mid(s.cpus[m].phase.next)) in s.freed
  }

  lemma Straddle(x: nat)
    ensures var lo := x * BAND + 511;
            Big(lo) == x && Big(lo + 1) == x && Big(lo + 2) == x && Mid(lo) + 1 == Mid(lo + 1) == Mid(lo + 2) && Over(Mid(lo)) == x && Over(Mid(lo + 1)) == x
  {
    var lo := x * BAND + 511;
    assert Mid(lo) == x * 512 && Mid(lo + 1) == x * 512 + 1 && Mid(lo + 2) == x * 512 + 1;
  }

  /** Processor j slips in below the doomed entry and takes two level-2 entries. */
  lemma SlipsTwice(s: State, k: nat, x: nat, j: nat, lo: nat) returns (t: State)
    requires Dooms(s, k, x) && IdleAt(s, j) && Big(lo) == x == Big(lo + 1)
    ensures Leads(s, t) && SlippedIn(s, t, k, x, j, lo, lo + 2, 2)
  {
    var s1 := SlipsIn(s, k, x, j, lo, lo + 2);
    assert Clear(s1, lo + 1);
    t := TakesNext(s1, j);
    LeadsTrans(s, s1, t);
    forall i: nat | Big(i) == x
      ensures Clear(t, i) <==> !(lo <= i < lo + 2)
    {
      assert TableOf(t, i) == TableOf(s1, i);
      assert Clear(s1, i) <==> i != lo;
    }
  }

  /** A range across two level-1 entries that count nothing makes them and the level-0 entry valid, but counts only the first. */
  lemma CountsFirst(s: State, lo: nat)
    requires Mid(lo) + 1 == Mid(lo + 1) && Big(lo) == Big(lo + 1) && lo !in s.full2 && Mid(lo) !in s.full1 && Mid(lo + 1) !in s.full1
    ensures var t := Count(s, lo, lo + 2);
            Mid(lo + 1) !in t.full1 && Mid(lo + 1) in t.valid1 && Big(lo) in t.valid0 && forall i: nat :: i in t.full2 ==> i in s.full2 || lo <= i <= lo + 1
  {
    assert Raised1(s, lo, lo + 2, Mid(lo)) && !Raised1(s, lo, lo + 2, Mid(lo + 1));
    assert Raised0(s, lo, lo + 2, Big(lo));
    InEntries(Mid(lo), Mid(lo + 1) + 1, Mid(lo + 1));
    InEntries(Big(lo), Big(lo) + 1, Big(lo));
  }

  /** Processor j has both of its level-2 entries, under two level-1 entries, and m is at the second. */
  ghost predicate Straddles(s: State, k: nat, j: nat, m: nat, lo: nat)
  {
    && IdleAt(s, k) && j < |s.cpus| && m < |s.cpus| && k != j && j != m && k != m && OneBand(lo, lo + 3) && Mid(lo) + 1 == Mid(lo + 1) == Mid(lo + 2)
    && AllTaken(s.cpus[j]) && s.cpus[j].lo == lo && s.cpus[j].hi == lo + 2
    && s.cpus[m] == Cpu(Insert, lo + 1, lo + 2, SmallUp(lo + 1, TableOf(s, lo + 1)))
    && Mid(lo) !in s.full1 && Mid(lo + 1) !in s.full1 && Mid(lo + 1) in s.kids1 && lo !in s.full2 && lo + 2 !in s.full2 && Clear(s, lo + 2)
  }

  lemma DoomedStraddle(s: State, k: nat, j: nat, m: nat, x: nat) returns (t: State)
    requires Dooms(s, k, x) && IdleAt(s, j) && IdleAt(s, m) && j != m
    ensures Leads(s, t) && Straddles(t, k, j, m, x * BAND + 511)
  {
    var lo := x * BAND + 511;
    Straddle(x);
    var s1 := SlipsTwice(s, k, x, j, lo);
    t := Descends(s1, m, lo + 1, lo + 2);
    DescendedTables(s1, m, lo + 1, lo + 2, Mid(lo + 1));
    StraddlesBelow(s, s1, k, x, j, lo);
    LeadsTrans(s, s1, t);
  }

  /** What is known of entries lo to lo + 2 and the two level-1 entries above. */
  lemma StraddlesBelow(s: State, t: State, k: nat, x: nat, j: nat, lo: nat)
    requires SlippedIn(s, t, k, x, j, lo, lo + 2, 2) && Big(lo) == x && Big(lo + 2) == x && Over(Mid(lo)) == x && Over(Mid(lo + 1)) == x
    ensures Mid(lo) !in t.full1 && Mid(lo + 1) !in t.full1 && lo !in t.full2 && lo + 2 !in t.full2 && Clear(t, lo + 2)
  {
  }

  lemma StraddleFreed(s: State, k: nat, j: nat, m: nat, lo: nat) returns (t: State)
    requires Straddles(s, k, j, m, lo)
    ensures Leads(s, t) && AtFreedTable(t, m)
  {
    EndShared(lo, lo + 1);
    var s1 := Accepts(s, j);
    AcceptedSame(s, j, s1);
    CountsFirst(s, lo);
    assert OwnsBig(s.cpus[j], Big(lo));
    t := RobsBelow(s1, k, m, lo + 2);
    LeadsTrans(s, s1, t);
  }

  lemma DoomedFreed(s: State, k: nat, j: nat, m: nat, x: nat) returns (t: State)
    requires Dooms(s, k, x) && IdleAt(s, j) && IdleAt(s, m) && j != m
    ensures Leads(s, t) && AtFreedTable(t, m)
  {
    var s1 := DoomedStraddle(s, k, j, m, x);
    t := StraddleFreed(s1, k, j, m, x * BAND + 511);
    LeadsTrans(s, s1, t);
  }

  /** A query of entry i, which is not valid, takes away the table that m is in. */
  lemma RobsBelow(s: State, k: nat, m: nat, i: nat) returns (t: State)
    requires IdleAt(s, k) && m < |s.cpus| && m != k && Big(i) !in s.big && Big(i) in s.valid0 && Mid(i) in s.valid1 && Clear(s, i) && i !in s.full2
    requires Mid(i) !in s.full1 && Mid(i) in s.kids1
    requires s.cpus[m].phase.SmallUp? && s.cpus[m].phase.next < s.cpus[m].hi && Mid(s.cpus[m].phase.next) == Mid(i) && s.cpus[m].phase.seen == TableOf(s, i)
    ensures Leads(s, t) && AtFreedTable(t, m)
  {
    var s1 := QueryFails(s, k, i);
    t := Robs(s1, k, Mid(i));
    LeadsTrans(s, s1, t);
    BigOfMid(i);
  }

  /** In the same situation a processor can come to be at a level-2 entry of a table that has been given back. */
  lemma CarelessUsesFreed(run: seq<State>, steps: seq<Step>, e: Step, j: nat, m: nat) returns (t: State)
    requires CarelessAfter(run, steps, e) && IdleAt(run[|steps|], j) && IdleAt(run[|steps|], m) && j != m
    ensures Leads(Apply(run[|steps|], e), t) && AtFreedTable(t, m)
  {
    RunInv(run, steps, |steps|);
    var x := CarelessDooms(run[|steps|], e);
    t := DoomedFreed(Apply(run[|steps|], e), e.cpu, j, m, x);
  }

  // ---------------------------------------------------------------------------------------------
  // A wait that does not end
  // ---------------------------------------------------------------------------------------------

  /** Processor m waits for a lock bit in a table that cannot be reached any more, but has not been given back. */
  ghost predicate Stranded(s: State, m: nat)
  {
    && m < |s.cpus| && s.cpus[m].phase.SmallUp? && Waits(s, s.cpus[m])
    && s.cpus[m].phase.seen.root < Get(s.roots, Big(s.cpus[m].phase.next))
    && (s.cpus[m].phase.seen, Mid(s.cpus[m].phase.next)) !in s.freed
  }

  lemma StrandedStep(s: State, e: Step, m: nat)
    requires Stranded(s, m) && Enabled(s, e)
    ensures Stranded(Apply(s, e), m)
  {
    assert e.cpu != m;
    ApplyOthers(s, e);
    var n, seen := s.cpus[m].phase.next, s.cpus[m].phase.seen;
    BigOfMid(n);
    assert (seen, n) in Apply(s, e).small;
    assert (seen, Mid(n)) !in Apply(s, e).freed;
  }

  /** That does not end, whatever steps follow. */
  lemma {:induction false} StrandedForever(run: seq<State>, steps: seq<Step>, i: nat, m: nat)
    requires IsPath(run, steps) && i < |run| && Stranded(run[0], m)
    ensures Stranded(run[i], m)
  {
    if i > 0 {
      StrandedForever(run, steps, i - 1, m);
      StrandedStep(run[i - 1], steps[i - 1], m);
    }
  }

  lemma StrandedLeads(s: State, t: State, m: nat)
    requires Stranded(s, m) && Leads(s, t)
    ensures Stranded(t, m)
  {
    var run, steps :| IsPath(run, steps) && run[0] == s && run[|run| - 1] == t;
    StrandedForever(run, steps, |run| - 1, m);
  }

  lemma {:induction false} FreedOldLeads(s: State, t: State)
    requires FreedOld(s) && Leads(s, t)
    ensures FreedOld(t)
  {
    var run, steps :| IsPath(run, steps) && run[0] == s && run[|run| - 1] == t;
    FreedOldPath(run, steps, |run| - 1);
  }

  lemma {:induction false} FreedOldPath(run: seq<State>, steps: seq<Step>, i: nat)
    requires IsPath(run, steps) && i < |run| && FreedOld(run[0])
    ensures FreedOld(run[i])
  {
    if i > 0 {
      FreedOldPath(run, steps, i - 1);
      ApplyFreed(run[i - 1], steps[i - 1]);
    }
  }

  /** An insertion below x fails for want of memory for its level-2 table, and overwrites x. */
  lemma FailsFirst(s: State, q: nat, i: nat) returns (t: State)
    requires IdleAt(s, q) && Big(i) !in s.big && Big(i) !in s.full0 && Big(i) < USER && Upto(s, Big(i)) && Mid(i) !in s.kids1
    ensures Leads(s, t) && |t.cpus| == |s.cpus| && t.cpus == s.cpus[q := t.cpus[q]] && Backing(t.cpus[q], Big(i))
    ensures Big(i) !in t.big && Bare(t, Big(i)) && Renewed(t, Big(i))
    ensures t.small == s.small && t.tables == s.tables && t.freed == s.freed && Get(t.roots, Big(i)) == Get(s.roots, Big(i)) + 1
  {
    var s1 := AtTables(s, q, Insert, i, i + 1);
    var s2 := Apply(s1, FailMid(q, Mid(i)));
    InEntries(Big(i), Big(i) + 1, Big(i));
    t := RollsOver(s2, q, Big(i));
    LeadsOn(s1, FailMid(q, Mid(i)), t);
    LeadsTrans(s, s1, t);
    assert t.cpus == s.cpus[q := t.cpus[q]];
  }

  /** Processors k and q have overwritten x one after the other; j and m are idle. */
  ghost predicate TwiceOverwritten(s: State, k: nat, q: nat, j: nat, m: nat, x: nat)
  {
    && k < |s.cpus| && q < |s.cpus| && k != q && Backing(s.cpus[k], x) && Backing(s.cpus[q], x)
    && IdleAt(s, j) && IdleAt(s, m) && j != m && x !in s.big && Bare(s, x) && Renewed(s, x) && x < USER
  }

  /** Processor j has the first level-2 entry below x, m waits for it, the others are idle, and x is neither locked nor counted. */
  ghost predicate FirstWaited(s: State, k: nat, q: nat, j: nat, m: nat, x: nat)
  {
    && IdleAt(s, k) && IdleAt(s, q) && j < |s.cpus| && m < |s.cpus| && k != q && j != m && j !in {k, q} && m !in {k, q}
    && s.cpus[j].lo == x * BAND && s.cpus[j].hi == x * BAND + 1 && AllTaken(s.cpus[j])
    && s.cpus[m] == Cpu(Insert, x * BAND, x * BAND + 1, SmallUp(x * BAND, TableOf(s, x * BAND))) && !Clear(s, x * BAND)
    && x !in s.big && x !in s.full0 && x < USER && Upto(s, x) && x * TABLE + 1 !in s.kids1
  }

  lemma FirstBelow(x: nat)
    ensures Big(x * BAND) == x && Mid(x * BAND) == x * TABLE && Over(x * TABLE) == x && Over(x * TABLE + 1) == x
    ensures Big(x * BAND + TABLE) == x && Mid(x * BAND + TABLE) == x * TABLE + 1
  {
  }

  /** Only the table above lo is new below x, and only lo is locked. */
  lemma TakesBelow(s: State, j: nat, x: nat) returns (t: State)
    requires IdleAt(s, j) && x !in s.big && Bare(s, x) && Renewed(s, x)
    ensures Leads(s, t) && |t.cpus| == |s.cpus| && t.cpus == s.cpus[j := t.cpus[j]]
    ensures t.cpus[j].lo == x * BAND && t.cpus[j].hi == x * BAND + 1 && AllTaken(t.cpus[j])
    ensures t.tables == s.tables && t.roots == s.roots && t.small == s.small + {(TableOf(s, x * BAND), x * BAND)}
    ensures x !in t.full0 && x * TABLE + 1 !in t.kids1
  {
    FirstBelow(x);
    t := TakesFirst(s, j, x * BAND, x * BAND + 1);
    DescendedTables(s, j, x * BAND, x * BAND + 1, x * TABLE + 1);
  }

  /** Processor j has the first level-2 entry below x, q has overwritten x, k and m are idle. */
  ghost predicate FirstTaken(s: State, k: nat, q: nat, j: nat, m: nat, x: nat)
  {
    && IdleAt(s, k) && IdleAt(s, m) && q < |s.cpus| && j < |s.cpus| && k != q && j != m && j !in {k, q} && m !in {k, q} && Backing(s.cpus[q], x)
    && s.cpus[j].lo == x * BAND && s.cpus[j].hi == x * BAND + 1 && AllTaken(s.cpus[j]) && !Clear(s, x * BAND)
    && x !in s.big && x !in s.full0 && x < USER && Upto(s, x) && x * TABLE + 1 !in s.kids1
  }

  lemma MakesHolder(s: State, k: nat, q: nat, j: nat, m: nat, x: nat) returns (t: State)
    requires TwiceOverwritten(s, k, q, j, m, x)
    ensures Leads(s, t) && FirstTaken(t, k, q, j, m, x) && SameRest(s, t, k, q, j, m)
  {
    FirstBelow(x);
    var s1 := TakesBelow(s, j, x);
    t := BackingLeaves(s1, k, x);
    LeadsTrans(s, s1, t);
  }

  lemma MakesWaiter(s: State, k: nat, q: nat, j: nat, m: nat, x: nat) returns (t: State)
    requires FirstTaken(s, k, q, j, m, x)
    ensures Leads(s, t) && FirstWaited(t, k, q, j, m, x) && SameRest(s, t, k, q, j, m)
  {
    FirstBelow(x);
    var s1 := Descends(s, m, x * BAND, x * BAND + 1);
    DescendedTables(s, m, x * BAND, x * BAND + 1, x * TABLE + 1);
    t := BackingLeaves(s1, q, x);
    LeadsTrans(s, s1, t);
  }

  lemma MakesWait(s: State, k: nat, q: nat, j: nat, m: nat, x: nat) returns (t: State)
    requires TwiceOverwritten(s, k, q, j, m, x)
    ensures Leads(s, t) && FirstWaited(t, k, q, j, m, x) && SameRest(s, t, k, q, j, m)
  {
    var s1 := MakesHolder(s, k, q, j, m, x);
    t := MakesWaiter(s1, k, q, j, m, x);
    LeadsTrans(s, s1, t);
  }

  /** All but four processors are as before. */
  ghost predicate SameRest(s: State, t: State, k: nat, q: nat, j: nat, m: nat)
  {
    |t.cpus| == |s.cpus| && forall i :: 0 <= i < |s.cpus| && i !in {k, q, j, m} ==> t.cpus[i] == s.cpus[i]
  }

  /** A third overwriting strands m. */
  lemma StrandsWaiter(s: State, k: nat, q: nat, j: nat, m: nat, x: nat) returns (t: State)
    requires FirstWaited(s, k, q, j, m, x) && FreedOld(s)
    ensures Leads(s, t) && Stranded(t, m) && SameRest(s, t, k, q, j, m)
    ensures IdleAt(t, k) && IdleAt(t, q) && t.cpus[j] == s.cpus[j] && x !in t.big && Clear(t, x * BAND)
  {
    FirstBelow(x);
    var s1 := FailsFirst(s, k, x * BAND + TABLE);
    t := BackingLeaves(s1, k, x);
    LeadsTrans(s, s1, t);
  }

  /** The others finish: q takes the entry again, gives it back, and so does j. */
  lemma OthersFinish(s: State, q: nat, j: nat, x: nat) returns (t: State)
    requires IdleAt(s, q) && j < |s.cpus| && j != q && AllTaken(s.cpus[j]) && s.cpus[j].hi == s.cpus[j].lo + 1
    requires x !in s.big && Clear(s, x * BAND)
    ensures Leads(s, t) && |t.cpus| == |s.cpus| && t.cpus == s.cpus[q := t.cpus[q]][j := t.cpus[j]] && IdleAt(t, q) && IdleAt(t, j)
  {
    FirstBelow(x);
    var s1 := Acquires(s, q, x * BAND);
    var s2 := GivesBack(s1, q);
    var s3 := Accepts(s2, j);
    t := GivesBack(s3, j);
    LeadsTrans(s2, s3, t);
    LeadsTrans(s1, s2, t);
    LeadsTrans(s, s1, t);
  }

  lemma DoomedTwice(s: State, k: nat, q: nat, j: nat, m: nat, x: nat) returns (t: State)
    requires Dooms(s, k, x) && IdleAt(s, q) && IdleAt(s, j) && IdleAt(s, m) && q != j && q != m && j != m
    ensures Leads(s, t) && TwiceOverwritten(t, k, q, j, m, x) && SameRest(s, t, k, q, j, m)
  {
    FirstBelow(x);
    var s1 := RollsOver(s, k, x);
    t := FailsFirst(s1, q, x * BAND);
    LeadsTrans(s, s1, t);
  }

  lemma DoomedStrand(s: State, k: nat, q: nat, j: nat, m: nat, x: nat) returns (t: State)
    requires Dooms(s, k, x) && FreedOld(s) && IdleAt(s, q) && IdleAt(s, j) && IdleAt(s, m) && q != j && q != m && j != m
    ensures Leads(s, t) && Stranded(t, m) && SameRest(s, t, k, q, j, m) && IdleAt(t, k) && IdleAt(t, q) && IdleAt(t, j)
  {
    var s1 := DoomedTwice(s, k, q, j, m, x);
    var s2 := MakesWait(s1, k, q, j, m, x);
    LeadsTrans(s, s1, s2);
    FreedOldLeads(s, s2);
    var s3 := StrandsWaiter(s2, k, q, j, m, x);
    t := OthersFinish(s3, q, j, x);
    StrandedLeads(s3, t, m);
    LeadsTrans(s2, s3, t);
    LeadsTrans(s, s2, t);
  }

  /**
   After a careless failure, with three idle processors, one of them can come to wait for a lock bit in a table that
   cannot be reached any more, for ever; with the rest idle, nobody can go on.
   */
  lemma CarelessStrands(run: seq<State>, steps: seq<Step>, e: Step, q: nat, j: nat, m: nat) returns (t: State)
    requires CarelessAfter(run, steps, e) && IdleAt(run[|steps|], q) && IdleAt(run[|steps|], j) && IdleAt(run[|steps|], m)
    requires q != j && q != m && j != m
    ensures Leads(Apply(run[|steps|], e), t) && Stranded(t, m) && |t.cpus| == |run[|steps|].cpus|
    ensures (forall i :: 0 <= i < |t.cpus| && i != e.cpu ==> run[|steps|].cpus[i].phase.Idle?) ==>
              forall i: nat :: i < |t.cpus| ==> !Enabled(t, Go(i))
  {
    RunInv(run, steps, |steps|);
    t := StepStrands(run[|steps|], e, q, j, m);
  }

  lemma StepStrands(s: State, e: Step, q: nat, j: nat, m: nat) returns (t: State)
    requires Inv(s) && Enabled(s, e) && !Careful(s, e) && IdleAt(s, q) && IdleAt(s, j) && IdleAt(s, m) && q != j && q != m && j != m
    ensures Leads(Apply(s, e), t) && Stranded(t, m) && |t.cpus| == |s.cpus|
    ensures (forall i :: 0 <= i < |s.cpus| && i != e.cpu ==> s.cpus[i].phase.Idle?) ==> forall i: nat :: i < |t.cpus| ==> !Enabled(t, Go(i))
  {
    var x := CarelessDooms(s, e);
    ApplyOthers(s, e);
    t := DoomedStrand(Apply(s, e), e.cpu, q, j, m, x);
  }

  /** A run in which no insertion overwrites, and each leaves counts exact. */
  ghost predicate GoodRun(run: seq<State>, steps: seq<Step>)
  {
    IsRun(run, steps) && CarefulRun(run, steps, |steps|) && CarriedRun(run, steps, |steps|)
  }

  lemma GoodStart(s: State)
    requires Start(s)
    ensures GoodRun([s], [])
  {
  }

  lemma GoodOn(run: seq<State>, steps: seq<Step>, e: Step)
    requires GoodRun(run, steps) && Enabled(run[|steps|], e) && Careful(run[|steps|], e) && Carries(run[|steps|], e)
    ensures GoodRun(run + [Apply(run[|steps|], e)], steps + [e])
  {
  }

  /** The first insertion into an empty address space fails for want of memory. */
  lemma FirstInsertFails() returns (run: seq<State>, steps: seq<Step>, e: Step)
    ensures CarelessAfter(run, steps, e) && CarriedRun(run, steps, |steps|) && |run[|steps|].cpus| == 4 && e.cpu == 0
    ensures IdleAt(run[|steps|], 1) && IdleAt(run[|steps|], 2) && IdleAt(run[|steps|], 3)
  {
    var idle := Cpu(Query, 0, 0, Idle);
    var s0 := State({}, {}, map[], map[], {}, {}, {}, {}, {}, {}, {}, {}, [idle, idle, idle, idle]);
    GoodStart(s0);
    var s1 := Apply(s0, Begin(0, Insert, 0, 1));
    GoodOn([s0], [], Begin(0, Insert, 0, 1));
    var s2 := Apply(s1, Go(0));
    GoodOn([s0] + [s1], [] + [Begin(0, Insert, 0, 1)], Go(0));
    run, steps, e := [s0] + [s1] + [s2], [] + [Begin(0, Insert, 0, 1)] + [Go(0)], FailMid(0, 0);
    assert ToUndo(Apply(s2, e).cpus[0], 0) && !Spared(s2, 0);
  }

  // ---------------------------------------------------------------------------------------------
  // An insertion that is not counted where it ends
  // ---------------------------------------------------------------------------------------------

  /** Some level-1 entry above y has no table. */
  lemma {:induction false} Bounded(kids: set<nat>) returns (b: nat)
    ensures forall y :: y in kids ==> y < b
  {
    if kids == {} {
      return 0;
    }
    var y :| y in kids;
    var b' := Bounded(kids - {y});
    b := if b' <= y then y + 1 else b';
    assert forall z :: z in kids ==> z == y || z in kids - {y};
  }

  /** With no level-0 entry of its range locked, a processor takes them all. */
  lemma {:induction false} Climbs(s: State, a: nat) returns (t: State)
    requires a < |s.cpus| && CpuOk(s.cpus[a]) && s.cpus[a].phase.BigUp?
    requires forall x :: s.cpus[a].phase.next <= x <= LastBig(s.cpus[a]) ==> x !in s.big
    ensures Leads(s, t) && t == s.(big := t.big, cpus := s.cpus[a := s.cpus[a].(phase := Tables)])
    ensures forall x: nat :: x in t.big ==> x in s.big || OwnsBig(t.cpus[a], x)
    decreases LastBig(s.cpus[a]) - s.cpus[a].phase.next
  {
    var s1 := GoStep(s, a);
    if s.cpus[a].phase.next < LastBig(s.cpus[a]) {
      t := Climbs(s1, a);
    } else {
      t := s1;
      LeadsNowhere(t);
    }
    LeadsOn(s, Go(a), t);
  }

  /** What rolling back through level-1 entries leaves alone, and that the table of the first of them goes if it counts nothing. */
  ghost predicate Unwound(s: State, t: State, a: nat)
    requires a < |s.cpus|
  {
    && t.cpus == s.cpus[a := s.cpus[a].(phase := TableBack(FirstMid(s.cpus[a])))]
    && t.small == s.small && t.roots == s.roots && t.big == s.big && t.full1 == s.full1
    && (forall y: nat :: Get(t.tables, y) >= Get(s.tables, y))
    && (var y := FirstMid(s.cpus[a]);
        s.cpus[a].phase.TableBack? && s.cpus[a].phase.next > y && y !in s.full1 && y in s.kids1 ==> Get(t.tables, y) > Get(s.tables, y))
  }

  lemma {:induction false} Unwinds(s: State, a: nat) returns (t: State)
    requires a < |s.cpus| && CpuOk(s.cpus[a]) && s.cpus[a].phase.TableBack?
    ensures Leads(s, t) && Unwound(s, t, a)
    decreases s.cpus[a].phase.next
  {
    if s.cpus[a].phase.next == FirstMid(s.cpus[a]) {
      t := s;
      LeadsNowhere(t);
    } else {
      var s1 := GoStep(s, a);
      t := Unwinds(s1, a);
      LeadsOn(s, Go(a), t);
      UnwoundOn(s, s1, t, a);
    }
  }

  lemma UnwoundOn(s: State, s1: State, t: State, a: nat)
    requires a < |s.cpus| && CpuOk(s.cpus[a]) && s.cpus[a].phase.TableBack? && s.cpus[a].phase.next > FirstMid(s.cpus[a])
    requires Enabled(s, Go(a)) && s1 == GoStep(s, a) && Unwound(s1, t, a)
    ensures Unwound(s, t, a)
  {
  }

  lemma FarEnd(y: nat, hi: nat)
    requires 0 < hi <= y
    ensures Mid(y * TABLE) == y > Mid(hi - 1) && hi - 1 < y * TABLE + 1
  {
  }

  /** An insertion that runs out of memory at level-1 entry y keeps its level-0 entries. */
  lemma FailsMid(s: State, a: nat, y: nat) returns (t: State)
    requires a < |s.cpus| && CpuOk(s.cpus[a]) && Enabled(s, FailMid(a, y)) && FirstMid(s.cpus[a]) < y
    ensures Leads(s, t) && |t.cpus| == |s.cpus| && t == s.(kids0 := t.kids0, kids1 := t.kids1, cpus := s.cpus[a := t.cpus[a]]) && s.kids1 <= t.kids1
    ensures CpuOk(t.cpus[a]) && t.cpus[a] == s.cpus[a].(phase := t.cpus[a].phase) && t.cpus[a].phase == TableBack(y)
    ensures forall x: nat :: OwnsBig(s.cpus[a], x) ==> OwnsBig(t.cpus[a], x)
  {
    t := Apply(s, FailMid(a, y));
    LeadsNowhere(t);
    LeadsOn(s, FailMid(a, y), t);
  }

  /** An insertion from hi - 1 on runs out of memory at a level-1 entry further up, and its rollback comes to that of hi - 1. */
  lemma InsertFailsAbove(s: State, a: nat, hi: nat) returns (t: State)
    requires IdleAt(s, a) && s.big == {} && hi > 0
    ensures Leads(s, t) && t == s.(big := t.big, kids0 := t.kids0, kids1 := t.kids1, cpus := t.cpus) && s.kids1 <= t.kids1
    ensures |t.cpus| == |s.cpus| && t.cpus == s.cpus[a := t.cpus[a]] && CpuOk(t.cpus[a]) && t.cpus[a].kind.Insert?
    ensures t.cpus[a].phase.TableBack? && FirstMid(t.cpus[a]) == Mid(hi - 1) < t.cpus[a].phase.next
    ensures forall x: nat :: x in t.big ==> OwnsBig(t.cpus[a], x)
  {
    var b := Bounded(s.kids1);
    var y := b + hi;
    var end := y * TABLE + 1;
    FarEnd(y, hi);
    var s1 := Apply(s, Begin(a, Insert, hi - 1, end));
    BigMono(hi - 1, end - 1);
    var s2 := Climbs(s1, a);
    t := FailsMid(s2, a, y);
    LeadsTrans(s1, s2, t);
    LeadsOn(s, Begin(a, Insert, hi - 1, end), t);
  }

  /** The table below the end of the range has gone: nothing is locked in the one there now. */
  lemma RobbedClear(s: State, t: State, i: nat)
    requires NoneAhead(s) && t.small == s.small && Get(t.tables, Mid(i)) > Get(s.tables, Mid(i))
    ensures Clear(t, i)
  {
  }

  lemma RobsAbove(s: State, a: nat, hi: nat) returns (t: State)
    requires IdleAt(s, a) && s.big == {} && hi > 0 && NoneAhead(s) && Mid(hi - 1) !in s.full1 && Mid(hi - 1) in s.kids1
    ensures Leads(s, t) && t.big == {} && Clear(t, hi - 1)
    ensures |t.cpus| == |s.cpus| && t.cpus == s.cpus[a := t.cpus[a]] && t.cpus[a].phase.Idle?
  {
    var s1 := InsertFailsAbove(s, a, hi);
    var s2 := Unwinds(s1, a);
    BigMono(s2.cpus[a].lo, s2.cpus[a].hi - 1);
    var s3 := GoStep(s2, a);
    t := Leaves(s3, a);
    LeadsOn(s2, Go(a), t);
    LeadsTrans(s1, s2, t);
    LeadsTrans(s, s1, t);
    RobbedClear(s, t, hi - 1);
    assert t.cpus == s.cpus[a := t.cpus[a]];
  }

  lemma RobsWithin(s: State, a: nat, hi: nat) returns (t: State)
    requires IdleAt(s, a) && s.big == {} && hi > 0 && NoneAhead(s) && Mid(hi - 1) !in s.full1 && Mid(hi - 1) in s.kids1
    requires Mid(hi) == Mid(hi - 1) && hi !in s.full2 && Clear(s, hi) && Mid(hi) in s.valid1 && Big(hi) in s.valid0
    ensures Leads(s, t) && t.big == {} && Clear(t, hi - 1)
    ensures |t.cpus| == |s.cpus| && t.cpus == s.cpus[a := t.cpus[a]] && t.cpus[a].phase.Idle?
  {
    var s1 := QueryFails(s, a, hi);
    t := Robs(s1, a, Mid(hi));
    LeadsTrans(s, s1, t);
    RobbedClear(s, t, hi - 1);
    assert t.cpus == s.cpus[a := t.cpus[a]];
  }

  /** Processor k has its range, which is not counted where it ends; no level-0 entry is locked. */
  ghost predicate Exposed(s: State, k: nat)
  {
    && k < |s.cpus| && s.cpus[k].phase.Holding? && s.cpus[k].lo < s.cpus[k].hi
    && s.big == {} && NoneAhead(s) && Mid(s.cpus[k].hi - 1) !in s.full1 && Mid(s.cpus[k].hi - 1) in s.kids1
    && (Mid(s.cpus[k].hi) == Mid(s.cpus[k].hi - 1) ==>
          s.cpus[k].hi !in s.full2 && Clear(s, s.cpus[k].hi) && Mid(s.cpus[k].hi) in s.valid1 && Big(s.cpus[k].hi) in s.valid0)
  }

  /** A query in the same table or, if the range fills it, an insertion that runs out of memory takes the table away. */
  lemma Robbery(s: State, k: nat, a: nat, b: nat) returns (t: State)
    requires Exposed(s, k) && IdleAt(s, a) && IdleAt(s, b) && a != b
    ensures Leads(s, t) && InUseTwice(t, k, b, s.cpus[k].hi - 1)
  {
    var hi := s.cpus[k].hi;
    var s1;
    if Mid(hi) == Mid(hi - 1) {
      s1 := RobsWithin(s, a, hi);
    } else {
      s1 := RobsAbove(s, a, hi);
    }
    t := Acquires(s1, b, hi - 1);
    LeadsTrans(s, s1, t);
  }

  /** After the insertion of the only busy processor, with its level-0 entries given back. */
  lemma AloneClear(s: State, k: nat, t: State)
    requires BigExact(s) && SmallHeld(s) && Accepted(s, k, t) && AllTaken(s.cpus[k])
    requires forall j :: 0 <= j < |s.cpus| && j != k ==> s.cpus[j].phase.Idle?
    ensures t.big == {} && Clear(t, s.cpus[k].hi)
  {
    assert TableOf(t, s.cpus[k].hi) == TableOf(s, s.cpus[k].hi);
  }

  /** The entries above the end of the range are valid, and the level-1 entry does not count it. */
  ghost predicate EndMissed(s: State, hi: nat)
  {
    hi > 0 && Mid(hi - 1) !in s.full1 && Mid(hi - 1) in s.valid1 && Big(hi - 1) in s.valid0 && (Mid(hi) == Mid(hi - 1) ==> hi !in s.full2)
  }

  lemma EndUncounted(s: State, lo: nat, hi: nat)
    requires lo < hi && Exact(s) && s.full0 <= s.valid0 && !Carried(s, lo, hi)
    ensures EndMissed(Count(s, lo, hi), hi)
  {
    EndNotCounted(s, lo, hi);
    BigMono(lo, hi - 1);
    InEntries(Mid(lo), Mid(hi - 1) + 1, Mid(hi - 1));
    InEntries(Big(lo), Big(hi - 1) + 1, Big(hi - 1));
    InEntries(lo, hi, hi);
    if Big(lo) == Big(hi - 1) && Big(lo) !in s.full0 {
      NothingBelow(s, lo);
      assert Raised1(s, lo, hi, Mid(lo));
    }
  }

  lemma NoneAheadSame(s: State, t: State)
    requires NoneAhead(s) && t.small == s.small && t.tables == s.tables && t.roots == s.roots
    ensures NoneAhead(t)
  {
  }

  lemma AloneExposed(s: State, k: nat, t: State)
    requires BigExact(s) && SmallHeld(s) && NoneAhead(s) && Accepted(s, k, t) && AllTaken(s.cpus[k]) && Tabled(s, s.cpus[k])
    requires forall j :: 0 <= j < |s.cpus| && j != k ==> s.cpus[j].phase.Idle?
    requires EndMissed(Count(s, s.cpus[k].lo, s.cpus[k].hi), s.cpus[k].hi)
    ensures Exposed(t, k)
  {
    AloneClear(s, k, t);
    AcceptedSame(s, k, t);
    NoneAheadSame(s, t);
    EndShared(s.cpus[k].lo, s.cpus[k].hi);
    assert EndMissed(t, s.cpus[k].hi);
  }

  lemma EndShared(lo: nat, hi: nat)
    requires lo < hi
    ensures Mid(lo) <= Mid(hi - 1) && (Mid(hi) == Mid(hi - 1) ==> Big(hi) == Big(hi - 1))
  {
    BigMono(lo, hi - 1);
    BigOfMid(hi);
    BigOfMid(hi - 1);
  }

  lemma UncarriedShape(s: State, k: nat)
    requires CpusOk(s) && AllTabled(s) && Enabled(s, Go(k)) && !Carries(s, Go(k))
    ensures AllTaken(s.cpus[k]) && Tabled(s, s.cpus[k]) && s.cpus[k].lo < s.cpus[k].hi && !Carried(s, s.cpus[k].lo, s.cpus[k].hi)
  {
  }

  lemma AloneShares(s: State, k: nat, a: nat, b: nat) returns (t: State)
    requires CpusOk(s) && BigExact(s) && AllTabled(s) && SmallHeld(s) && Exact(s) && NoneAhead(s) && s.full0 <= s.valid0
    requires Enabled(s, Go(k)) && !Carries(s, Go(k)) && a < |s.cpus| && b < |s.cpus| && a != b && a != k && b != k
    requires forall j :: 0 <= j < |s.cpus| && j != k ==> s.cpus[j].phase.Idle?
    ensures Leads(Apply(s, Go(k)), t) && InUseTwice(t, k, b, s.cpus[k].hi - 1)
  {
    UncarriedShape(s, k);
    EndUncounted(s, s.cpus[k].lo, s.cpus[k].hi);
    var s1 := Accepts(s, k);
    AloneExposed(s, k, s1);
    t := Robbery(s1, k, a, b);
    LeadsTrans(Apply(s, Go(k)), s1, t);
  }

  /**
   When an insertion succeeds that ends below a level-1 entry it does not start below and that counts nothing yet, and
   all other processors are idle, two of these can bring it about that the end of the range is in use twice.
   */
  lemma UncarriedShares(run: seq<State>, steps: seq<Step>, k: nat, a: nat, b: nat) returns (t: State)
    requires GoodRun(run, steps) && Enabled(run[|steps|], Go(k)) && !Carries(run[|steps|], Go(k))
    requires a < |run[|steps|].cpus| && b < |run[|steps|].cpus| && a != b && a != k && b != k
    requires forall j :: 0 <= j < |run[|steps|].cpus| && j != k ==> run[|steps|].cpus[j].phase.Idle?
    ensures Leads(Apply(run[|steps|], Go(k)), t) && InUseTwice(t, k, b, run[|steps|].cpus[k].hi - 1)
  {
    RunInv2(run, steps, |steps|);
    t := AloneShares(run[|steps|], k, a, b);
  }

  /** Three processors, the first of them on its way into an empty address space across a boundary of 1 GiB. */
  function Crossing(p: Phase, big: set<nat>, kids: set<nat>, kids1: set<nat>, small: set<(Table, nat)>): State
  {
    var idle := Cpu(Query, 0, 0, Idle);
    State(big, small, map[], map[], kids, kids1, {}, {}, {}, {}, {}, {}, [Cpu(Insert, 511, 513, p), idle, idle])
  }

  lemma CrossingSteps()
    ensures var t := Table(0, 0); var s := Crossing(Tables, {0}, {}, {}, {}); Enabled(s, Go(0)) && Apply(s, Go(0)) == Crossing(SmallUp(511, t), {0}, {0}, {0, 1}, {})
    ensures var t := Table(0, 0); var s := Crossing(SmallUp(511, t), {0}, {0}, {0, 1}, {}); Enabled(s, Go(0)) && Apply(s, Go(0)) == Crossing(SmallUp(512, t), {0}, {0}, {0, 1}, {(t, 511)})
    ensures var t := Table(0, 0); var s := Crossing(SmallUp(512, t), {0}, {0}, {0, 1}, {(t, 511)}); Enabled(s, Go(0)) && Apply(s, Go(0)) == Crossing(SmallUp(513, t), {0}, {0}, {0, 1}, {(t, 511), (t, 512)})
  {
    assert Entries(0, 1) == {0} && Entries(0, 2) == {0, 1} by {
      assert Within(0, 0, 1) && Within(0, 0, 2) && Within(0, 1, 2);
    }
  }

  lemma CrossingStarts()
    ensures var s := Crossing(Idle, {}, {}, {}, {}); Start(s) && Enabled(s, Begin(0, Insert, 511, 513)) && Apply(s, Begin(0, Insert, 511, 513)) == Crossing(BigUp(0), {}, {}, {}, {})
    ensures var s := Crossing(BigUp(0), {}, {}, {}, {}); Enabled(s, Go(0)) && Apply(s, Go(0)) == Crossing(Tables, {0}, {}, {}, {})
  {
  }

  /** A run that ends on the way across goes on. */
  lemma GoodNext(run: seq<State>, steps: seq<Step>, e: Step, s: State) returns (run': seq<State>, steps': seq<Step>)
    requires GoodRun(run, steps) && Enabled(run[|steps|], e) && (e.Begin? || e.Go?) && !Ends(run[|steps|], e) && Apply(run[|steps|], e) == s
    ensures GoodRun(run', steps') && run'[|steps'|] == s
  {
    GoodOn(run, steps, e);
    run', steps' := run + [s], steps + [e];
  }

  lemma CrossingEnds()
    ensures var t := Table(0, 0); var s := Crossing(SmallUp(513, t), {0}, {0}, {0, 1}, {(t, 511), (t, 512)}); Enabled(s, Go(0)) && !Carries(s, Go(0))
  {
  }

  lemma CrossingHalf() returns (run: seq<State>, steps: seq<Step>)
    ensures GoodRun(run, steps) && run[|steps|] == Crossing(Tables, {0}, {}, {}, {})
  {
    CrossingStarts();
    GoodStart(Crossing(Idle, {}, {}, {}, {}));
    run, steps := [Crossing(Idle, {}, {}, {}, {})], [];
    run, steps := GoodNext(run, steps, Begin(0, Insert, 511, 513), Crossing(BigUp(0), {}, {}, {}, {}));
    run, steps := GoodNext(run, steps, Go(0), Crossing(Tables, {0}, {}, {}, {}));
  }

  /** The first insertion into an empty address space goes across a boundary of 1 GiB. */
  lemma FirstInsertCrosses() returns (run: seq<State>, steps: seq<Step>)
    ensures GoodRun(run, steps) && Enabled(run[|steps|], Go(0)) && !Carries(run[|steps|], Go(0))
    ensures |run[|steps|].cpus| == 3 && run[|steps|].cpus[1].phase.Idle? && run[|steps|].cpus[2].phase.Idle?
  {
    var t := Table(0, 0);
    run, steps := CrossingHalf();
    CrossingSteps();
    CrossingEnds();
    run, steps := GoodNext(run, steps, Go(0), Crossing(SmallUp(511, t), {0}, {0}, {0, 1}, {}));
    run, steps := GoodNext(run, steps, Go(0), Crossing(SmallUp(512, t), {0}, {0}, {0, 1}, {(t, 511)}));
    run, steps := GoodNext(run, steps, Go(0), Crossing(SmallUp(513, t), {0}, {0}, {0, 1}, {(t, 511), (t, 512)}));
  }
}

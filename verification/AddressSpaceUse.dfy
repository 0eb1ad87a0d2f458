/**
 Which processor uses which user address space (task_manager.c, thread.c, vmm.c): reference counts and
 TLB masks over every interleaving of address-space switches, thread creation and thread death.
 */
module AddressSpaceUse {

  /** The root address space; it is not counted. */
  const ROOT: int := -1

  /** Where a processor is in the middle of switching. */
  datatype Phase =
    | Settled
    | Got(next: nat)        // reference to the new space taken
    | Masked(next: nat)     // own bit set in its mask
    | Switched(was: nat)    // running on the new space, the previous one still marked
    | Unmasked(was: nat)    // own bit cleared in the mask of the previous one

  datatype State = State(
    refs: map<nat, nat>,        // reference counts of the existing spaces
    mask: map<nat, set<nat>>,   // TLB masks
    owners: map<nat, nat>,      // threads (or creators) and the space each owns a reference to
    current: seq<int>,          // per processor: the space in use
    phase: seq<Phase>,
    dying: set<nat>)            // spaces whose last reference is gone, not deleted yet

  datatype Step =
    | Create(space: nat, owner: nat)
    | Share(owner: nat, other: nat)
    | Drop(owner: nat)
    | Get(cpu: nat, owner: nat)
    | Mark(cpu: nat)
    | Switch(cpu: nat)
    | Unmark(cpu: nat)
    | Put(cpu: nat)
    | Delete(space: nat)

  predicate Enabled(s: State, e: Step)
  {
    match e
    case Create(v, o) => v !in s.refs && o !in s.owners
    case Share(o, o') => o in s.owners && o' !in s.owners && s.owners[o] in s.refs
    case Drop(o) => o in s.owners && s.owners[o] in s.refs && s.refs[s.owners[o]] > 0
    case Get(c, o) => c < |s.phase| && c < |s.current| && s.phase[c].Settled? && o in s.owners && s.owners[o] in s.refs && s.owners[o] != s.current[c]
    case Mark(c) => c < |s.phase| && s.phase[c].Got? && s.phase[c].next in s.mask
    case Switch(c) => c < |s.phase| && c < |s.current| && s.phase[c].Masked?
    case Unmark(c) => c < |s.phase| && s.phase[c].Switched? && s.phase[c].was in s.mask
    case Put(c) => c < |s.phase| && s.phase[c].Unmasked? && s.phase[c].was in s.refs && s.refs[s.phase[c].was] > 0
    case Delete(v) => v in s.dying && v in s.mask && s.mask[v] == {}
  }

  /** ref_get_not_zero. */
  function GetRef(s: State, v: nat): State
    requires v in s.refs
  {
    if s.refs[v] > 0 then s.(refs := s.refs[v := s.refs[v] + 1]) else s
  }

  /** ref_put: with the last reference the space starts to die. */
  function PutRef(s: State, v: nat): State
    requires v in s.refs && s.refs[v] > 0
  {
    s.(refs := s.refs[v := s.refs[v] - 1], dying := if s.refs[v] == 1 then s.dying + {v} else s.dying)
  }

  function Apply(s: State, e: Step): State
    requires Enabled(s, e)
  {
    match e
    case Create(v, o) => s.(refs := s.refs[v := 1], mask := s.mask[v := {}], owners := s.owners[o := v])
    case Share(o, o') =>
      var v := s.owners[o];
      if s.refs[v] > 0 then GetRef(s, v).(owners := s.owners[o' := v]) else s
    case Drop(o) => PutRef(s, s.owners[o]).(owners := s.owners - {o})
    case Get(c, o) =>
      var v := s.owners[o];
      if s.refs[v] > 0 then GetRef(s, v).(phase := s.phase[c := Got(v)]) else s
    case Mark(c) =>
      var v := s.phase[c].next;
      s.(mask := s.mask[v := s.mask[v] + {c}], phase := s.phase[c := Masked(v)])
    case Switch(c) =>
      var was := s.current[c];
      s.(current := s.current[c := s.phase[c].next], phase := s.phase[c := if was < 0 then Settled else Switched(was)])
    case Unmark(c) =>
      var v := s.phase[c].was;
      s.(mask := s.mask[v := s.mask[v] - {c}], phase := s.phase[c := Unmasked(v)])
    case Put(c) => PutRef(s, s.phase[c].was).(phase := s.phase[c := Settled])
    case Delete(v) => s.(refs := s.refs - {v}, mask := s.mask - {v}, dying := s.dying - {v})
  }

  // ---------------------------------------------------------------------------------------------
  // Who holds what
  // ---------------------------------------------------------------------------------------------

  predicate PhaseHolds(p: Phase, v: nat) { p == Got(v) || p == Masked(v) || p == Switched(v) || p == Unmasked(v) }

  /** Processor c holds a reference to v. */
  predicate Holds(s: State, c: nat, v: nat)
  {
    && c < |s.current| && c < |s.phase|
    && (s.current[c] == v || PhaseHolds(s.phase[c], v))
  }

  /** Processor c may have translations of v in its TLB, and says so in the mask. */
  predicate Marked(s: State, c: nat, v: nat)
  {
    c < |s.current| && c < |s.phase| && (s.current[c] == v || s.phase[c] == Masked(v) || s.phase[c] == Switched(v))
  }

  ghost function Holders(s: State, v: nat): set<nat> { set c: nat | c < |s.current| && Holds(s, c, v) }

  ghost function OwnersOf(s: State, v: nat): set<nat> { set o | o in s.owners && s.owners[o] == v }

  ghost predicate PhasesOk(s: State)
  {
    && |s.phase| == |s.current|
    && forall c :: 0 <= c < |s.phase| ==>
         match s.phase[c]
         case Settled => true
         case Got(v) => s.current[c] != v
         case Masked(v) => s.current[c] != v
         case Switched(v) => s.current[c] != v
         case Unmasked(v) => s.current[c] != v
  }

  /** Whoever is owned or held exists. */
  ghost predicate Existing(s: State)
  {
    && s.mask.Keys == s.refs.Keys
    && (forall o :: o in s.owners ==> s.owners[o] in s.refs)
    && (forall c: nat, v: nat :: Holds(s, c, v) ==> v in s.refs)
    && (forall c :: 0 <= c < |s.current| ==> s.current[c] >= ROOT)
  }

  /** The count of a space is the number of its owners plus the number of processors that hold it. */
  ghost predicate Counted(s: State)
  {
    forall v :: v in s.refs ==> s.refs[v] == |OwnersOf(s, v)| + |Holders(s, v)|
  }

  /** The mask of a space is the set of processors marked for it. */
  ghost predicate MasksExact(s: State)
  {
    forall v, c: nat :: v in s.mask ==> (c in s.mask[v] <==> Marked(s, c, v))
  }

  ghost predicate DyingOk(s: State)
  {
    forall v :: v in s.refs ==> (v in s.dying <==> s.refs[v] == 0)
  }

  ghost predicate Inv(s: State)
  {
    PhasesOk(s) && Existing(s) && Counted(s) && MasksExact(s) && DyingOk(s) && s.dying <= s.refs.Keys
  }

  ghost predicate Start(s: State)
  {
    && s.refs == map[] && s.mask == map[] && s.owners == map[] && s.dying == {}
    && |s.phase| == |s.current| && forall c :: 0 <= c < |s.current| ==> s.current[c] == ROOT && s.phase[c] == Settled
  }

  lemma StartInv(s: State)
    requires Start(s)
    ensures Inv(s)
  {
  }

  /** A step of processor c changes what c holds, and nothing that another processor holds. */
  lemma HoldersChange(s: State, s': State, c: nat, v: nat)
    requires |s'.current| == |s.current| && |s'.phase| == |s.phase| == |s.current| && c < |s.current|
    requires forall d :: 0 <= d < |s.current| && d != c ==> s'.current[d] == s.current[d] && s'.phase[d] == s.phase[d]
    ensures |Holders(s', v)| == |Holders(s, v)| + (if Holds(s', c, v) then 1 else 0) - (if Holds(s, c, v) then 1 else 0)
  {
    HoldersSet(s, s', c, v);
    var rest := Holders(s, v) - {c};
    assert Holds(s, c, v) <==> c in Holders(s, v);
    assert Holders(s, v) == if Holds(s, c, v) then rest + {c} else rest;
  }

  lemma HoldersSet(s: State, s': State, c: nat, v: nat)
    requires |s'.current| == |s.current| && |s'.phase| == |s.phase| == |s.current| && c < |s.current|
    requires forall d :: 0 <= d < |s.current| && d != c ==> s'.current[d] == s.current[d] && s'.phase[d] == s.phase[d]
    ensures Holders(s', v) == (Holders(s, v) - {c}) + if Holds(s', c, v) then {c} else {}
  {
    forall d: nat
      ensures d in Holders(s', v) <==> d in (Holders(s, v) - {c}) + if Holds(s', c, v) then {c} else {}
    {
      assert d != c ==> (Holds(s', d, v) <==> Holds(s, d, v));
    }
  }

  lemma OwnersSame(s: State, s': State)
    requires s'.owners == s.owners
    ensures forall v :: OwnersOf(s', v) == OwnersOf(s, v)
  {
  }

  lemma HoldersSame(s: State, s': State)
    requires s'.current == s.current && s'.phase == s.phase
    ensures forall v :: Holders(s', v) == Holders(s, v)
    ensures forall c: nat, v: nat :: (Holds(s', c, v) <==> Holds(s, c, v)) && (Marked(s', c, v) <==> Marked(s, c, v))
  {
  }

  // ---------------------------------------------------------------------------------------------
  // Every step keeps the invariant
  // ---------------------------------------------------------------------------------------------

  lemma OwnerAdded(s: State, s': State, o: nat, v: nat)
    requires o !in s.owners && s'.owners == s.owners[o := v]
    ensures forall w :: |OwnersOf(s', w)| == |OwnersOf(s, w)| + if w == v then 1 else 0
  {
    forall w
      ensures |OwnersOf(s', w)| == |OwnersOf(s, w)| + if w == v then 1 else 0
    {
      OwnersSet(s, s', o, v, w);
    }
  }

  lemma OwnersSet(s: State, s': State, o: nat, v: nat, w: nat)
    requires o !in s.owners && s'.owners == s.owners[o := v]
    ensures OwnersOf(s', w) == (if w == v then OwnersOf(s, w) + {o} else OwnersOf(s, w)) && o !in OwnersOf(s, w)
  {
  }

  lemma OwnerGone(s: State, s': State, o: nat)
    requires o in s.owners && s'.owners == s.owners - {o}
    ensures forall w :: |OwnersOf(s', w)| == |OwnersOf(s, w)| - if w == s.owners[o] then 1 else 0
  {
    forall w
      ensures |OwnersOf(s', w)| == |OwnersOf(s, w)| - if w == s.owners[o] then 1 else 0
    {
      assert OwnersOf(s, w) == if w == s.owners[o] then OwnersOf(s', w) + {o} else OwnersOf(s', w);
    }
  }

  lemma CreateInv(s: State, v: nat, o: nat)
    requires Inv(s) && Enabled(s, Create(v, o))
    ensures Inv(Apply(s, Create(v, o)))
  {
    var s' := Apply(s, Create(v, o));
    HoldersSame(s, s');
    OwnerAdded(s, s', o, v);
    assert OwnersOf(s, v) == {} && Holders(s, v) == {};
  }

  lemma ShareInv(s: State, o: nat, o': nat)
    requires Inv(s) && Enabled(s, Share(o, o'))
    ensures Inv(Apply(s, Share(o, o')))
  {
    var s', v := Apply(s, Share(o, o')), s.owners[o];
    HoldersSame(s, s');
    if s.refs[v] > 0 {
      OwnerAdded(s, s', o', v);
    }
  }

  lemma DropInv(s: State, o: nat)
    requires Inv(s) && Enabled(s, Drop(o))
    ensures Inv(Apply(s, Drop(o)))
  {
    var s' := Apply(s, Drop(o));
    HoldersSame(s, s');
    OwnerGone(s, s', o);
  }

  /** A step of processor c on its own fields, with the counts following. */
  lemma CpuCounted(s: State, s': State, c: nat)
    requires Counted(s) && s'.owners == s.owners && s'.refs.Keys == s.refs.Keys
    requires |s'.current| == |s.current| && |s'.phase| == |s.phase| == |s.current| && c < |s.current|
    requires forall d :: 0 <= d < |s.current| && d != c ==> s'.current[d] == s.current[d] && s'.phase[d] == s.phase[d]
    requires forall v :: v in s.refs ==> s'.refs[v] + (if Holds(s, c, v) then 1 else 0) == s.refs[v] + (if Holds(s', c, v) then 1 else 0)
    ensures Counted(s')
  {
    OwnersSame(s, s');
    forall v | v in s'.refs
      ensures s'.refs[v] == |OwnersOf(s', v)| + |Holders(s', v)|
    {
      HoldersChange(s, s', c, v);
    }
  }

  /** What a step of processor c leaves alone for the other processors. */
  lemma CpuFrame(s: State, s': State, c: nat)
    requires PhasesOk(s) && Existing(s) && c < |s.current|
    requires s'.refs.Keys == s.refs.Keys && s'.mask.Keys == s.mask.Keys && s'.owners == s.owners
    requires |s'.current| == |s.current| && |s'.phase| == |s.phase|
    requires forall d :: 0 <= d < |s.current| && d != c ==> s'.current[d] == s.current[d] && s'.phase[d] == s.phase[d]
    requires s'.current[c] >= ROOT && forall v: nat :: Holds(s', c, v) ==> Holds(s, c, v) || v in s.refs
    ensures Existing(s')
  {
    forall d: nat, v: nat | Holds(s', d, v)
      ensures v in s'.refs
    {
      assert d != c ==> Holds(s, d, v);
    }
  }

  /** The masks follow the marks of processor c. */
  lemma CpuMasks(s: State, s': State, c: nat)
    requires MasksExact(s) && c < |s.current| && |s.phase| == |s.current| && s'.mask.Keys == s.mask.Keys
    requires |s'.current| == |s.current| && |s'.phase| == |s.phase|
    requires forall d :: 0 <= d < |s.current| && d != c ==> s'.current[d] == s.current[d] && s'.phase[d] == s.phase[d]
    requires forall v :: v in s.mask ==> s'.mask[v] == if Marked(s', c, v) then s.mask[v] + {c} else s.mask[v] - {c}
    ensures MasksExact(s')
  {
    forall v, d: nat | v in s'.mask
      ensures d in s'.mask[v] <==> Marked(s', d, v)
    {
      assert d != c ==> (Marked(s', d, v) <==> Marked(s, d, v));
    }
  }

  lemma GetCounted(s: State, c: nat, o: nat)
    requires PhasesOk(s) && Counted(s) && Enabled(s, Get(c, o)) && s.refs[s.owners[o]] > 0
    ensures Counted(Apply(s, Get(c, o)))
  {
    CpuCounted(s, Apply(s, Get(c, o)), c);
  }

  lemma GetFrame(s: State, c: nat, o: nat)
    requires PhasesOk(s) && Existing(s) && MasksExact(s) && Enabled(s, Get(c, o)) && s.refs[s.owners[o]] > 0
    ensures Existing(Apply(s, Get(c, o))) && MasksExact(Apply(s, Get(c, o)))
  {
    CpuFrame(s, Apply(s, Get(c, o)), c);
    CpuMasks(s, Apply(s, Get(c, o)), c);
  }

  lemma GetInv(s: State, c: nat, o: nat)
    requires Inv(s) && Enabled(s, Get(c, o))
    ensures Inv(Apply(s, Get(c, o)))
  {
    var s', v := Apply(s, Get(c, o)), s.owners[o];
    if s.refs[v] > 0 {
      GetCounted(s, c, o);
      GetFrame(s, c, o);
    }
  }

  lemma MarkCounted(s: State, c: nat)
    requires PhasesOk(s) && Existing(s) && Counted(s) && Enabled(s, Mark(c))
    ensures Counted(Apply(s, Mark(c)))
  {
    CpuCounted(s, Apply(s, Mark(c)), c);
  }

  lemma MarkFrame(s: State, c: nat)
    requires PhasesOk(s) && Existing(s) && Enabled(s, Mark(c))
    ensures Existing(Apply(s, Mark(c)))
  {
    CpuFrame(s, Apply(s, Mark(c)), c);
  }

  lemma MarkMasks(s: State, c: nat)
    requires PhasesOk(s) && Existing(s) && MasksExact(s) && Enabled(s, Mark(c))
    ensures MasksExact(Apply(s, Mark(c)))
  {
    CpuMasks(s, Apply(s, Mark(c)), c);
  }

  lemma MarkInv(s: State, c: nat)
    requires Inv(s) && Enabled(s, Mark(c))
    ensures Inv(Apply(s, Mark(c)))
  {
    MarkCounted(s, c);
    MarkFrame(s, c);
    MarkMasks(s, c);
  }

  lemma SwitchCounted(s: State, c: nat)
    requires PhasesOk(s) && Existing(s) && Counted(s) && Enabled(s, Switch(c))
    ensures Counted(Apply(s, Switch(c)))
  {
    CpuCounted(s, Apply(s, Switch(c)), c);
  }

  lemma SwitchFrame(s: State, c: nat)
    requires PhasesOk(s) && Existing(s) && Enabled(s, Switch(c))
    ensures Existing(Apply(s, Switch(c)))
  {
    CpuFrame(s, Apply(s, Switch(c)), c);
  }

  lemma SwitchMasks(s: State, c: nat)
    requires PhasesOk(s) && Existing(s) && MasksExact(s) && Enabled(s, Switch(c))
    ensures MasksExact(Apply(s, Switch(c)))
  {
    CpuMasks(s, Apply(s, Switch(c)), c);
  }

  lemma SwitchInv(s: State, c: nat)
    requires Inv(s) && Enabled(s, Switch(c))
    ensures Inv(Apply(s, Switch(c)))
  {
    SwitchCounted(s, c);
    SwitchFrame(s, c);
    SwitchMasks(s, c);
  }

  lemma UnmarkCounted(s: State, c: nat)
    requires PhasesOk(s) && Existing(s) && Counted(s) && Enabled(s, Unmark(c))
    ensures Counted(Apply(s, Unmark(c)))
  {
    CpuCounted(s, Apply(s, Unmark(c)), c);
  }

  lemma UnmarkFrame(s: State, c: nat)
    requires PhasesOk(s) && Existing(s) && Enabled(s, Unmark(c))
    ensures Existing(Apply(s, Unmark(c)))
  {
    CpuFrame(s, Apply(s, Unmark(c)), c);
  }

  lemma UnmarkMasks(s: State, c: nat)
    requires PhasesOk(s) && Existing(s) && MasksExact(s) && Enabled(s, Unmark(c))
    ensures MasksExact(Apply(s, Unmark(c)))
  {
    CpuMasks(s, Apply(s, Unmark(c)), c);
  }

  lemma UnmarkInv(s: State, c: nat)
    requires Inv(s) && Enabled(s, Unmark(c))
    ensures Inv(Apply(s, Unmark(c)))
  {
    UnmarkCounted(s, c);
    UnmarkFrame(s, c);
    UnmarkMasks(s, c);
  }

  lemma PutCounted(s: State, c: nat)
    requires PhasesOk(s) && Counted(s) && Enabled(s, Put(c))
    ensures Counted(Apply(s, Put(c)))
  {
    CpuCounted(s, Apply(s, Put(c)), c);
  }

  lemma PutFrame(s: State, c: nat)
    requires PhasesOk(s) && Existing(s) && MasksExact(s) && Enabled(s, Put(c))
    ensures Existing(Apply(s, Put(c))) && MasksExact(Apply(s, Put(c)))
  {
    CpuFrame(s, Apply(s, Put(c)), c);
    CpuMasks(s, Apply(s, Put(c)), c);
  }

  lemma PutInv(s: State, c: nat)
    requires Inv(s) && Enabled(s, Put(c))
    ensures Inv(Apply(s, Put(c)))
  {
    var s' := Apply(s, Put(c));
    PutCounted(s, c);
    PutFrame(s, c);
  }

  lemma DeleteInv(s: State, v: nat)
    requires Inv(s) && Enabled(s, Delete(v))
    ensures Inv(Apply(s, Delete(v)))
  {
    var s' := Apply(s, Delete(v));
    HoldersSame(s, s');
    OwnersSame(s, s');
    assert OwnersOf(s, v) == {} && Holders(s, v) == {};
    forall o | o in s'.owners
      ensures s'.owners[o] in s'.refs
    {
      assert o in OwnersOf(s, s.owners[o]);
    }
    forall d: nat, w: nat | Holds(s', d, w)
      ensures w in s'.refs
    {
      assert d in Holders(s, w);
    }
  }

  lemma ApplyInv(s: State, e: Step)
    requires Inv(s) && Enabled(s, e)
    ensures Inv(Apply(s, e))
  {
    match e
    case Create(v, o) => CreateInv(s, v, o);
    case Share(o, o') => ShareInv(s, o, o');
    case Drop(o) => DropInv(s, o);
    case Get(c, o) => GetInv(s, c, o);
    case Mark(c) => MarkInv(s, c);
    case Switch(c) => SwitchInv(s, c);
    case Unmark(c) => UnmarkInv(s, c);
    case Put(c) => PutInv(s, c);
    case Delete(v) => DeleteInv(s, v);
  }

  /** A run of steps from the state after boot. */
  ghost predicate IsRun(run: seq<State>, steps: seq<Step>)
  {
    && |run| == |steps| + 1 && Start(run[0])
    && forall i {:trigger steps[i]} :: 0 <= i < |steps| ==> Enabled(run[i], steps[i]) && run[i + 1] == Apply(run[i], steps[i])
  }

  lemma {:induction false} RunInv(run: seq<State>, steps: seq<Step>, i: nat)
    requires IsRun(run, steps) && i < |run|
    ensures Inv(run[i])
  {
    if i == 0 {
      StartInv(run[0]);
    } else {
      RunInv(run, steps, i - 1);
      ApplyInv(run[i - 1], steps[i - 1]);
    }
  }

  /** In every reachable state a dying space has no owner, no processor holds it, and its mask is empty. */
  lemma DyingMaskEmpty(run: seq<State>, steps: seq<Step>, i: nat, v: nat)
    requires IsRun(run, steps) && i < |run| && v in run[i].dying
    ensures v in run[i].mask && run[i].mask[v] == {} && v in run[i].refs && run[i].refs[v] == 0
    ensures Enabled(run[i], Delete(v))
    ensures forall o :: o in run[i].owners ==> run[i].owners[o] != v
    ensures forall c: nat :: !Holds(run[i], c, v)
  {
    RunInv(run, steps, i);
    var s := run[i];
    assert OwnersOf(s, v) == {} && Holders(s, v) == {};
    forall o | o in s.owners
      ensures s.owners[o] != v
    {
      assert s.owners[o] == v ==> o in OwnersOf(s, v);
    }
    forall c: nat
      ensures !Holds(s, c, v)
    {
      assert Holds(s, c, v) ==> c in Holders(s, v);
    }
    assert forall c :: c in s.mask[v] ==> Marked(s, c, v);
    assert forall c: nat :: Marked(s, c, v) ==> Holds(s, c, v);
  }

  /** With no switch under way, the mask is the set of processors on the space and the count adds its owners to them. */
  lemma SettledExact(run: seq<State>, steps: seq<Step>, i: nat, v: nat)
    requires IsRun(run, steps) && i < |run| && v in run[i].refs
    requires forall c :: 0 <= c < |run[i].phase| ==> run[i].phase[c].Settled?
    ensures var s := run[i];
            && v in s.mask && (forall c: nat :: c in s.mask[v] <==> c < |s.current| && s.current[c] == v)
            && s.refs[v] == |OwnersOf(s, v)| + |s.mask[v]|
  {
    RunInv(run, steps, i);
    assert run[i].mask[v] == Holders(run[i], v);
  }

  /** A thread's space has a reference while the thread owns one, so switching to it never fails. */
  lemma GetSucceeds(run: seq<State>, steps: seq<Step>, i: nat, c: nat, o: nat)
    requires IsRun(run, steps) && i < |run| && Enabled(run[i], Get(c, o))
    ensures var v := run[i].owners[o]; var s' := Apply(run[i], Get(c, o));
            run[i].refs[v] > 0 && s'.phase[c] == Got(v) && s'.refs == run[i].refs[v := run[i].refs[v] + 1]
  {
    RunInv(run, steps, i);
    assert o in OwnersOf(run[i], run[i].owners[o]);
  }
}

/**
 Epoch-based reclamation as an interleaved step system.

 Every CPU runs a stack of activations (a reclaim scan calls free callbacks, and a callback may
 call back into this module). One step is one access to shared memory, so entering and leaving a
 section, loading an epoch and scanning the CPUs are all interleaved freely with the other CPUs.
 */
module EpochReclamation {

  /** Capacity of a CPU's retire table. */
  const SLOTS: nat := 512

  /** An allocated object; a recycled address counts as a new node. */
  type Node = nat

  datatype Slot = Unused | Rec(node: Node, epoch: nat)

  /** One activation on a CPU, named after what it does next. */
  datatype Frame =
    | EnterLoad
    | EnterStore(ge: nat)
    | EnterFlag
    | ExitClear
    | ExitAdvance
    | ScanStart
    | ScanFlag(start: nat, i: nat, safe: nat)
    | ScanLocal(start: nat, i: nat, safe: nat)
    | ScanCount(start: nat, safe: nat)
    | ScanSlot(start: nat, j: nat, safe: nat)
    | Callback(start: nat, j: nat, safe: nat)
    | RetireLoad(node: Node)
    | RetireFind(node: Node, epoch: nat, j: nat, lastTry: bool)

  /** Where a node is in its life. `InFrame(c, k)`: argument of activation k on CPU c. */
  datatype Place =
    | Linked
    | Unlinked
    | InFrame(cpu: nat, k: nat)
    | InSlot(cpu: nat, j: nat)
    | Leaked
    | Freed

  /** When a retirement was called (model clock) and the epoch it was tagged with. */
  datatype Stamp = Stamp(born: nat, epoch: nat)

  /**
   The per-CPU variables, plus two history variables of the reader: `window`, the nodes that were
   linked at some moment since the section became active, and `held`, the pointers it took.
   */
  datatype Cpu = Cpu(
    depth: nat, active: bool, local: nat, recs: seq<Slot>, count: int, stack: seq<Frame>,
    window: set<Node>, held: set<Node>)

  /**
   `epoch` is the global epoch. History variables: a clock that ticks at every retire
   call, the place, call time and stamp of each node, and the log of freed nodes.
   */
  datatype State = State(
    epoch: nat, cpus: seq<Cpu>, clock: nat,
    place: map<Node, Place>, born: map<Node, nat>, stamp: map<Node, Stamp>, freed: multiset<Node>)

  /** What CPU c does next: advance its top activation, or let its client make a call. */
  datatype Action =
    | Advance
    | CallEnter
    | CallExit
    | CallReclaim
    | CallRetire(node: Node)
    | Acquire(node: Node)
    | Drop(node: Node)
    | Link(node: Node)
    | Unlink(node: Node)

  predicate Init(s: State)
  {
    && s.epoch == 1
    && (forall c :: 0 <= c < |s.cpus| ==>
          s.cpus[c] == Cpu(0, false, 0, seq(SLOTS, _ => Unused), 0, [], {}, {}))
    && s.place == map[] && s.born == map[] && s.stamp == map[] && s.freed == multiset{}
  }

  /** Client code runs when the CPU executes no step of this module, or inside a free callback. */
  predicate AtClient(cpu: Cpu)
  {
    cpu.stack == [] || cpu.stack[|cpu.stack| - 1].Callback?
  }

  predicate Enabled(s: State, c: nat, a: Action)
  {
    && c < |s.cpus|
    && match a
       case Advance => s.cpus[c].stack != []
       case CallEnter => AtClient(s.cpus[c])
       case CallExit => AtClient(s.cpus[c]) && s.cpus[c].depth > 0
       case CallReclaim => AtClient(s.cpus[c])
       case CallRetire(n) => AtClient(s.cpus[c]) && n in s.place && s.place[n] == Unlinked
       case Acquire(n) => AtClient(s.cpus[c]) && s.cpus[c].active && n in s.cpus[c].window
       case Drop(n) => AtClient(s.cpus[c])
       case Link(n) => AtClient(s.cpus[c]) && n !in s.place
       case Unlink(n) => AtClient(s.cpus[c]) && n in s.place && s.place[n] == Linked
  }

  function SetCpu(s: State, c: nat, cpu: Cpu): State
    requires c < |s.cpus|
  {
    s.(cpus := s.cpus[c := cpu])
  }

  function Push(cpu: Cpu, f: Frame): Cpu
  {
    cpu.(stack := cpu.stack + [f])
  }

  /** Replaces the running activation. */
  function Become(cpu: Cpu, f: Frame): Cpu
    requires cpu.stack != []
  {
    cpu.(stack := cpu.stack[|cpu.stack| - 1 := f])
  }

  function Pop(cpu: Cpu): Cpu
    requires cpu.stack != []
  {
    cpu.(stack := cpu.stack[..|cpu.stack| - 1])
  }

  function Min(a: nat, b: nat): nat { if a < b then a else b }

  /** The nodes linked now; a section that becomes active may reach exactly these. */
  function LinkedNodes(s: State): set<Node>
  {
    set n | n in s.place && s.place[n] == Linked
  }

  function LinkOn(cpu: Cpu, n: Node): Cpu
  {
    if cpu.active then cpu.(window := cpu.window + {n}) else cpu
  }

  /** A fresh node becomes reachable for everyone who is in a section. */
  function LinkStep(s: State, n: Node): State
  {
    s.(place := s.place[n := Linked],
       cpus := seq(|s.cpus|, i requires 0 <= i < |s.cpus| => LinkOn(s.cpus[i], n)))
  }

  function Apply(s: State, c: nat, a: Action): State
    requires Enabled(s, c, a)
  {
    match a
    case Advance => Step(s, c)
    case CallRetire(n) => CallRetireStep(s, c, n)
    case Link(n) => LinkStep(s, n)
    case Unlink(n) => s.(place := s.place[n := Unlinked])
    case _ => SetCpu(s, c, CallStep(s.cpus[c], a))
  }

  /** The calls that only touch the CPU's own variables. */
  function CallStep(cpu: Cpu, a: Action): Cpu
    requires a.CallEnter? || a.CallExit? || a.CallReclaim? || a.Acquire? || a.Drop?
    requires a.CallExit? ==> cpu.depth > 0
  {
    match a
    case CallEnter =>
      var deeper := cpu.(depth := cpu.depth + 1);
      if cpu.depth == 0 then Push(deeper, EnterLoad) else deeper
    case CallExit =>
      var shallower := cpu.(depth := cpu.depth - 1);
      if cpu.depth == 1 then Push(shallower, ExitClear) else shallower
    case CallReclaim => Push(cpu, ScanStart)
    case Acquire(n) => cpu.(held := cpu.held + {n})
    case Drop(n) => cpu.(held := cpu.held - {n})
  }

  /** The owner of an unlinked node hands it to ebr_retire_ref. */
  function CallRetireStep(s: State, c: nat, n: Node): State
    requires c < |s.cpus|
  {
    SetCpu(s, c, Push(s.cpus[c], RetireLoad(n)))
      .(clock := s.clock + 1,
        place := s.place[n := InFrame(c, |s.cpus[c].stack|)],
        born := s.born[n := s.clock + 1])
  }

  function Top(s: State, c: nat): Frame
    requires c < |s.cpus| && s.cpus[c].stack != []
  {
    s.cpus[c].stack[|s.cpus[c].stack| - 1]
  }

  /** One shared-memory access of the running activation of CPU c. */
  function Step(s: State, c: nat): State
    requires c < |s.cpus| && s.cpus[c].stack != []
  {
    var f := Top(s, c);
    if f.EnterLoad? || f.EnterStore? || f.EnterFlag? then EnterStep(s, c)
    else if f.ExitClear? || f.ExitAdvance? then ExitStep(s, c)
    else if f.ScanSlot? then SweepStep(s, c)
    else if f.RetireLoad? then RetireLoadStep(s, c)
    else if f.RetireFind? then RetireFindStep(s, c)
    else ScanStep(s, c)
  }

  /** ebr_enter: load the global epoch, publish it, then raise the flag. */
  function EnterStep(s: State, c: nat): State
    requires c < |s.cpus| && s.cpus[c].stack != []
    requires Top(s, c).EnterLoad? || Top(s, c).EnterStore? || Top(s, c).EnterFlag?
  {
    var cpu := s.cpus[c];
    match Top(s, c)
    case EnterLoad => SetCpu(s, c, Become(cpu, EnterStore(s.epoch)))
    case EnterStore(ge) => SetCpu(s, c, Become(cpu.(local := ge), EnterFlag))
    case EnterFlag => SetCpu(s, c, Pop(cpu).(active := true, window := LinkedNodes(s)))
  }

  /** ebr_exit: lower the flag, advance the epoch, then reclaim. */
  function ExitStep(s: State, c: nat): State
    requires c < |s.cpus| && s.cpus[c].stack != []
    requires Top(s, c).ExitClear? || Top(s, c).ExitAdvance?
  {
    var cpu := s.cpus[c];
    match Top(s, c)
    case ExitClear => SetCpu(s, c, Become(cpu.(active := false, window := {}, held := {}), ExitAdvance))
    case ExitAdvance => SetCpu(s, c, Become(cpu, ScanStart)).(epoch := s.epoch + 1)
  }

  /** ebr_compute_safe_epoch, one load at a time, and the return from a free callback. */
  function ScanStep(s: State, c: nat): State
    requires c < |s.cpus| && s.cpus[c].stack != []
    requires Top(s, c).ScanStart? || Top(s, c).ScanFlag? || Top(s, c).ScanLocal? || Top(s, c).ScanCount?
             || Top(s, c).Callback?
  {
    var cpu := s.cpus[c];
    match Top(s, c)
    case ScanStart => SetCpu(s, c, Become(cpu, ScanFlag(s.clock, 0, s.epoch)))
    case ScanFlag(t, i, safe) =>
      if i >= |s.cpus| then SetCpu(s, c, Become(cpu, ScanCount(t, safe)))
      else if s.cpus[i].active then SetCpu(s, c, Become(cpu, ScanLocal(t, i, safe)))
      else SetCpu(s, c, Become(cpu, ScanFlag(t, i + 1, safe)))
    case ScanLocal(t, i, safe) =>
      if i >= |s.cpus| then s
      else SetCpu(s, c, Become(cpu, ScanFlag(t, i + 1, Min(safe, s.cpus[i].local))))
    case ScanCount(t, safe) =>
      SetCpu(s, c, if cpu.count <= 0 then Pop(cpu) else Become(cpu, ScanSlot(t, 0, safe)))
    case Callback(t, j, safe) => SetCpu(s, c, Become(cpu, ScanSlot(t, j + 1, safe)))
  }

  /** ebr_try_reclaim at one slot: the record is cleared before its free callback runs. */
  function SweepStep(s: State, c: nat): State
    requires c < |s.cpus| && s.cpus[c].stack != [] && Top(s, c).ScanSlot?
  {
    var cpu := s.cpus[c];
    var ScanSlot(t, j, safe) := Top(s, c);
    if j >= |cpu.recs| then SetCpu(s, c, Pop(cpu))
    else if cpu.recs[j].Unused? || cpu.recs[j].epoch >= safe then
      SetCpu(s, c, Become(cpu, ScanSlot(t, j + 1, safe)))
    else
      SetCpu(s, c, Become(cpu.(recs := cpu.recs[j := Unused], count := cpu.count - 1), Callback(t, j, safe)))
        .(freed := s.freed + multiset{cpu.recs[j].node}, place := s.place[cpu.recs[j].node := Freed])
  }

  /** ebr_retire_ref, first part: load the epoch the record will carry, then reclaim. */
  function RetireLoadStep(s: State, c: nat): State
    requires c < |s.cpus| && s.cpus[c].stack != [] && Top(s, c).RetireLoad?
  {
    var n := Top(s, c).node;
    var b := if n in s.born then s.born[n] else 0;
    SetCpu(s, c, Push(Become(s.cpus[c], RetireFind(n, s.epoch, 0, false)), ScanStart))
      .(stamp := s.stamp[n := Stamp(b, s.epoch)])
  }

  /** ebr_retire_ref, second part: look for a slot twice with a reclaim between, else leak the node. */
  function RetireFindStep(s: State, c: nat): State
    requires c < |s.cpus| && s.cpus[c].stack != [] && Top(s, c).RetireFind?
  {
    var cpu := s.cpus[c];
    var RetireFind(n, e, j, lastTry) := Top(s, c);
    if j >= |cpu.recs| then
      if lastTry then SetCpu(s, c, Become(cpu, ScanStart)).(place := s.place[n := Leaked])
      else SetCpu(s, c, Push(Become(cpu, RetireFind(n, e, 0, true)), ScanStart))
    else if cpu.recs[j] != Unused then SetCpu(s, c, Become(cpu, RetireFind(n, e, j + 1, lastTry)))
    else
      SetCpu(s, c, Become(cpu.(recs := cpu.recs[j := Rec(n, e)], count := cpu.count + 1), ScanStart))
        .(place := s.place[n := InSlot(c, j)])
  }

  // ---------------------------------------------------------------------------------------------
  // The inductive invariant
  // ---------------------------------------------------------------------------------------------

  predicate Expired(r: Slot, safe: nat) { r.Rec? && r.epoch < safe }

  predicate IsEnter(f: Frame) { f.EnterLoad? || f.EnterStore? || f.EnterFlag? }

  /** The scan has loaded the global epoch. */
  predicate IsScan(f: Frame)
  {
    f.ScanFlag? || f.ScanLocal? || f.ScanCount? || f.ScanSlot? || f.Callback?
  }

  /** The CPUs a scan has already looked at are those below this index. */
  function Visited(s: State, f: Frame): nat
    requires IsScan(f)
  {
    match f
    case ScanFlag(_, i, _) => i
    case ScanLocal(_, i, _) => i
    case _ => |s.cpus|
  }

  /** Only callbacks and retirements are interrupted, and the flag follows the nesting depth. */
  ghost predicate Control(cpu: Cpu)
  {
    && (forall k :: 0 <= k < |cpu.stack| - 1 ==> cpu.stack[k].Callback? || cpu.stack[k].RetireFind?)
    && (if cpu.stack != [] && IsEnter(cpu.stack[|cpu.stack| - 1]) then !cpu.active && cpu.depth == 1
        else if cpu.stack != [] && cpu.stack[|cpu.stack| - 1].ExitClear? then cpu.depth == 0
        else cpu.active <==> cpu.depth > 0)
    && cpu.held <= cpu.window
    && (!cpu.active ==> cpu.window == {})
  }

  /** Epochs copied out of the global epoch never run ahead of it. */
  ghost predicate FrameOk(s: State, f: Frame)
  {
    && (f.EnterStore? ==> f.ge <= s.epoch)
    && (IsScan(f) ==> f.safe <= s.epoch && f.start <= s.clock && Visited(s, f) <= |s.cpus|)
    && (f.ScanLocal? ==> f.i < |s.cpus|)
  }

  /** A node is where its place says, so no two slots or activations own the same node. */
  ghost predicate Owned(s: State, c: nat)
    requires c < |s.cpus|
  {
    && (forall k :: 0 <= k < |s.cpus[c].stack| ==> OwnedFrame(s, c, k))
    && (forall j :: 0 <= j < |s.cpus[c].recs| ==> OwnedSlot(s, c, j))
  }

  ghost predicate OwnedFrame(s: State, c: nat, k: nat)
    requires c < |s.cpus| && k < |s.cpus[c].stack|
  {
    var f := s.cpus[c].stack[k];
    && (f.RetireLoad? ==>
          f.node in s.place && s.place[f.node] == InFrame(c, k) && f.node in s.born && f.node !in s.stamp)
    && (f.RetireFind? ==>
          && f.node in s.place && s.place[f.node] == InFrame(c, k)
          && f.node in s.stamp && s.stamp[f.node].epoch == f.epoch)
  }

  ghost predicate OwnedSlot(s: State, c: nat, j: nat)
    requires c < |s.cpus| && j < |s.cpus[c].recs|
  {
    var r := s.cpus[c].recs[j];
    r.Rec? ==>
      && r.node in s.place && s.place[r.node] == InSlot(c, j)
      && r.node in s.stamp && s.stamp[r.node].epoch == r.epoch
  }

  ghost predicate HistoryOk(s: State)
  {
    && (forall n :: n in s.stamp ==>
          && n in s.place && s.place[n] != Linked && s.place[n] != Unlinked
          && n in s.born && s.stamp[n].born == s.born[n]
          && s.stamp[n].epoch <= s.epoch)
    && (forall n :: n in s.born ==>
          s.born[n] <= s.clock && n in s.place && s.place[n] != Linked && s.place[n] != Unlinked)
    && (forall n :: s.freed[n] == if n in s.place && s.place[n] == Freed then 1 else 0)
  }

  /** What an open section may reach was never freed, and was retired no earlier than its epoch. */
  ghost predicate WindowOk(s: State, c: nat)
    requires c < |s.cpus|
  {
    var cpu := s.cpus[c];
    && cpu.local <= s.epoch
    && forall n :: n in cpu.window ==>
         && n in s.place && s.place[n] != Freed
         && (n in s.stamp ==> cpu.local <= s.stamp[n].epoch)
  }

  /** The bound a scan has computed so far protects every section it has already looked at. */
  ghost predicate ScanOk(s: State, f: Frame)
    requires IsScan(f)
  {
    && (forall i, n :: 0 <= i < Visited(s, f) && i < |s.cpus| && n in s.cpus[i].window && n in s.stamp ==>
          f.safe <= s.stamp[n].epoch)
    && (forall n :: n in s.stamp && f.start < s.stamp[n].born ==> f.safe <= s.stamp[n].epoch)
  }

  ghost predicate CpuOk(s: State, c: nat)
    requires c < |s.cpus|
  {
    && |s.cpus[c].recs| == SLOTS && s.cpus[c].count == UsedSlots(s.cpus[c].recs)
    && Control(s.cpus[c])
    && (forall k :: 0 <= k < |s.cpus[c].stack| ==> FrameOk(s, s.cpus[c].stack[k]))
    && (forall k :: 0 <= k < |s.cpus[c].stack| && IsScan(s.cpus[c].stack[k]) ==> ScanOk(s, s.cpus[c].stack[k]))
    && WindowOk(s, c)
    && Owned(s, c)
  }

  ghost predicate Inv(s: State)
  {
    && HistoryOk(s)
    && forall c :: 0 <= c < |s.cpus| ==> CpuOk(s, c)
  }

  lemma InitInv(s: State)
    requires Init(s)
    ensures Inv(s)
  {
    UsedSlotsNone(seq(SLOTS, _ => Unused));
  }

  /** The table as the counter sees it. */
  function UsedSlots(recs: seq<Slot>): nat
  {
    if recs == [] then 0 else (if recs[0].Rec? then 1 else 0) + UsedSlots(recs[1..])
  }

  lemma {:induction false} UsedSlotsUpdate(recs: seq<Slot>, j: nat, r: Slot)
    requires j < |recs|
    ensures UsedSlots(recs[j := r]) == UsedSlots(recs) - (if recs[j].Rec? then 1 else 0) + (if r.Rec? then 1 else 0)
  {
    if j == 0 {
      assert recs[j := r][1..] == recs[1..];
    } else {
      assert recs[j := r][1..] == recs[1..][j - 1 := r];
      UsedSlotsUpdate(recs[1..], j - 1, r);
    }
  }

  lemma {:induction false} UsedSlotsNone(recs: seq<Slot>)
    ensures UsedSlots(recs) == 0 <==> forall j :: 0 <= j < |recs| ==> recs[j].Unused?
  {
    if recs != [] {
      UsedSlotsNone(recs[1..]);
      assert forall j :: 1 <= j < |recs| ==> recs[j] == recs[1..][j - 1];
    }
  }

  /** CPU c may move this node: it is shared client property or c's own. */
  predicate Movable(p: Place, c: nat)
  {
    p == Linked || p == Unlinked || (p.InFrame? && p.cpu == c) || (p.InSlot? && p.cpu == c)
  }

  /**
   What a step of CPU c may do to the rest of the system: the epoch and the clock grow, a stamp
   given now carries the current epoch, only c's own nodes change place, and a node that becomes
   free is in no section.
   */
  ghost predicate Moves(s: State, s': State, c: nat)
  {
    && |s'.cpus| == |s.cpus|
    && (forall d :: 0 <= d < |s.cpus| && d != c ==> s'.cpus[d] == s.cpus[d])
    && s.epoch <= s'.epoch && s.clock <= s'.clock
    && (forall n :: n in s'.stamp ==>
          if n in s.stamp then s'.stamp[n] == s.stamp[n]
          else s'.stamp[n].epoch == s.epoch && n in s.place && s.place[n].InFrame? && s.place[n].cpu == c)
    && (forall n :: n in s.stamp ==> n in s'.stamp)
    && (forall n :: n in s.born ==> n in s'.born)
    && (forall n :: n in s.place ==> n in s'.place && (s'.place[n] == s.place[n] || Movable(s.place[n], c)))
    && (forall n :: n in s.place && s.place[n] != Freed && s'.place[n] == Freed ==>
          forall d :: 0 <= d < |s.cpus| ==> n !in s.cpus[d].window)
    && (c < |s.cpus| ==> forall n :: n in s'.cpus[c].window && n in s.stamp ==> n in s.cpus[c].window)
  }

  /** A scan's bound stays safe whatever step is taken. */
  lemma ScanKept(s: State, s': State, c: nat, f: Frame)
    requires IsScan(f) && FrameOk(s, f) && ScanOk(s, f) && Moves(s, s', c)
    ensures FrameOk(s', f) && ScanOk(s', f)
  {
    forall i, n | 0 <= i < Visited(s', f) && i < |s'.cpus| && n in s'.cpus[i].window && n in s'.stamp
      ensures f.safe <= s'.stamp[n].epoch
    {
      if n in s.stamp {
        assert n in s.cpus[i].window;
      }
    }
  }

  lemma FrameKept(s: State, s': State, c: nat, f: Frame)
    requires FrameOk(s, f) && (IsScan(f) ==> ScanOk(s, f)) && Moves(s, s', c)
    ensures FrameOk(s', f) && (IsScan(f) ==> ScanOk(s', f))
  {
    if IsScan(f) {
      ScanKept(s, s', c, f);
    }
  }

  /** A step of CPU c keeps what the invariant says about every other CPU. */
  lemma OtherKept(s: State, s': State, c: nat, d: nat)
    requires Moves(s, s', c) && d < |s.cpus| && d != c && CpuOk(s, d)
    ensures CpuOk(s', d)
  {
    forall k | 0 <= k < |s'.cpus[d].stack|
      ensures FrameOk(s', s'.cpus[d].stack[k]) && OwnedFrame(s', d, k)
      ensures IsScan(s'.cpus[d].stack[k]) ==> ScanOk(s', s'.cpus[d].stack[k])
    {
      FrameKept(s, s', c, s.cpus[d].stack[k]);
      assert OwnedFrame(s, d, k);
    }
    forall j | 0 <= j < |s'.cpus[d].recs|
      ensures OwnedSlot(s', d, j)
    {
      assert OwnedSlot(s, d, j);
    }
  }

  /** What the invariant says about the moving CPU below activation `top`. */
  lemma MoverKept(s: State, s': State, c: nat, top: nat)
    requires c < |s.cpus| && Moves(s, s', c) && CpuOk(s, c)
    requires top <= |s.cpus[c].stack| && top <= |s'.cpus[c].stack|
    requires s'.cpus[c].stack[..top] == s.cpus[c].stack[..top]
    requires forall n :: n in s.place && s.place[n].InFrame? && s.place[n].cpu == c && s.place[n].k < top ==>
               s'.place[n] == s.place[n]
    requires forall k :: 0 <= k < top ==> !s.cpus[c].stack[k].RetireLoad?
    ensures forall k :: 0 <= k < top ==>
              && s'.cpus[c].stack[k] == s.cpus[c].stack[k]
              && FrameOk(s', s'.cpus[c].stack[k]) && OwnedFrame(s', c, k)
              && (IsScan(s'.cpus[c].stack[k]) ==> ScanOk(s', s'.cpus[c].stack[k]))
  {
    forall k | 0 <= k < top
      ensures && s'.cpus[c].stack[k] == s.cpus[c].stack[k]
              && FrameOk(s', s'.cpus[c].stack[k]) && OwnedFrame(s', c, k)
              && (IsScan(s'.cpus[c].stack[k]) ==> ScanOk(s', s'.cpus[c].stack[k]))
    {
      assert s'.cpus[c].stack[k] == s'.cpus[c].stack[..top][k] == s.cpus[c].stack[k];
      FrameKept(s, s', c, s.cpus[c].stack[k]);
      assert OwnedFrame(s, c, k);
    }
  }

  /** A slot that was not rewritten keeps its owner. */
  lemma SlotsKept(s: State, s': State, c: nat)
    requires c < |s.cpus| && Moves(s, s', c) && Owned(s, c) && |s'.cpus[c].recs| == |s.cpus[c].recs|
    requires forall n :: n in s.place && s.place[n].InSlot? && s.place[n].cpu == c
                         && s.place[n].j < |s.cpus[c].recs|
                         && s'.cpus[c].recs[s.place[n].j] == s.cpus[c].recs[s.place[n].j] ==>
               s'.place[n] == s.place[n]
    ensures forall j :: 0 <= j < |s.cpus[c].recs| && s'.cpus[c].recs[j] == s.cpus[c].recs[j] ==> OwnedSlot(s', c, j)
  {
    forall j | 0 <= j < |s.cpus[c].recs| && s'.cpus[c].recs[j] == s.cpus[c].recs[j]
      ensures OwnedSlot(s', c, j)
    {
      assert OwnedSlot(s, c, j);
    }
  }

  /** What a step of c leaves alone: activations below `top`, and slots it does not rewrite, with their nodes. */
  ghost predicate BelowKept(s: State, s': State, c: nat, top: nat)
  {
    && c < |s.cpus| == |s'.cpus| && |s.cpus[c].recs| == SLOTS == |s'.cpus[c].recs|
    && top <= |s.cpus[c].stack| && top <= |s'.cpus[c].stack| && s'.cpus[c].stack[..top] == s.cpus[c].stack[..top]
    && (forall n :: n in s.place && s.place[n].InFrame? && s.place[n].cpu == c && s.place[n].k < top ==>
          n in s'.place && s'.place[n] == s.place[n])
    && (forall n :: n in s.place && s.place[n].InSlot? && s.place[n].cpu == c && s.place[n].j < SLOTS
                    && s'.cpus[c].recs[s.place[n].j] == s.cpus[c].recs[s.place[n].j] ==>
          n in s'.place && s'.place[n] == s.place[n])
  }

  /** What it leaves in order: the activations from `top` on, the slots it rewrites, and the counter. */
  ghost predicate AboveOk(s: State, s': State, c: nat, top: nat)
  {
    && c < |s.cpus| == |s'.cpus| && |s.cpus[c].recs| == SLOTS == |s'.cpus[c].recs|
    && Control(s'.cpus[c]) && s'.cpus[c].count == UsedSlots(s'.cpus[c].recs)
    && (forall j :: 0 <= j < SLOTS && s'.cpus[c].recs[j] != s.cpus[c].recs[j] ==> OwnedSlot(s', c, j))
    && (forall k :: top <= k < |s'.cpus[c].stack| ==>
          && FrameOk(s', s'.cpus[c].stack[k]) && OwnedFrame(s', c, k)
          && (IsScan(s'.cpus[c].stack[k]) ==> ScanOk(s', s'.cpus[c].stack[k])))
  }

  /** Puts the invariant of the moving CPU together again from what the step changed. */
  lemma MoverRebuilt(s: State, s': State, c: nat, top: nat)
    requires c < |s.cpus| && CpuOk(s, c) && Moves(s, s', c) && WindowOk(s', c)
    requires BelowKept(s, s', c, top) && AboveOk(s, s', c, top)
    requires forall k :: 0 <= k < top ==> !s.cpus[c].stack[k].RetireLoad?
    ensures CpuOk(s', c)
  {
    MoverKept(s, s', c, top);
    SlotsKept(s, s', c);
  }

  /** The activation may be replaced by f' without touching a node. */
  ghost predicate QuietFrame(s: State, s': State, c: nat, k: nat)
    requires c < |s.cpus| && c < |s'.cpus| && k < |s'.cpus[c].stack|
  {
    var f' := s'.cpus[c].stack[k];
    && FrameOk(s, f')
    && (IsScan(f') ==> ScanOk(s, f'))
    && !f'.RetireLoad?
    && (f'.RetireFind? ==>
          && k < |s.cpus[c].stack| && s.cpus[c].stack[k].RetireFind?
          && s.cpus[c].stack[k].node == f'.node && s.cpus[c].stack[k].epoch == f'.epoch)
  }

  /** A step that only changes c's variables, or the epoch, and moves no node. */
  ghost predicate Quiet(s: State, s': State, c: nat)
    requires c < |s.cpus|
  {
    && s.epoch <= s'.epoch
    && |s'.cpus| == |s.cpus|
    && s' == s.(epoch := s'.epoch, cpus := s.cpus[c := s'.cpus[c]])
    && s'.cpus[c].recs == s.cpus[c].recs && s'.cpus[c].count == s.cpus[c].count
    && s'.cpus[c].local <= s'.epoch
    && forall n :: n in s'.cpus[c].window ==>
         || (n in s.cpus[c].window && s'.cpus[c].local == s.cpus[c].local)
         || (n in s.place && s.place[n] == Linked)
  }

  lemma QuietMoves(s: State, s': State, c: nat)
    requires c < |s.cpus| && HistoryOk(s) && WindowOk(s, c) && Quiet(s, s', c)
    ensures Moves(s, s', c) && HistoryOk(s') && WindowOk(s', c)
  {
  }

  lemma QuietKept(s: State, s': State, c: nat, top: nat)
    requires c < |s.cpus| && HistoryOk(s) && CpuOk(s, c) && Quiet(s, s', c) && Control(s'.cpus[c])
    requires top <= |s.cpus[c].stack| && top <= |s'.cpus[c].stack|
    requires s'.cpus[c].stack[..top] == s.cpus[c].stack[..top]
    requires forall k :: 0 <= k < top ==> !s.cpus[c].stack[k].RetireLoad?
    requires forall k :: top <= k < |s'.cpus[c].stack| ==> QuietFrame(s, s', c, k)
    ensures Moves(s, s', c) && CpuOk(s', c) && HistoryOk(s')
  {
    QuietMoves(s, s', c);
    MoverKept(s, s', c, top);
    SlotsKept(s, s', c);
    forall k | top <= k < |s'.cpus[c].stack|
      ensures FrameOk(s', s'.cpus[c].stack[k]) && OwnedFrame(s', c, k)
      ensures IsScan(s'.cpus[c].stack[k]) ==> ScanOk(s', s'.cpus[c].stack[k])
    {
      assert QuietFrame(s, s', c, k);
      if k < |s.cpus[c].stack| {
        assert OwnedFrame(s, c, k);
      }
      if IsScan(s'.cpus[c].stack[k]) {
        ScanKept(s, s', c, s'.cpus[c].stack[k]);
      }
    }
  }

  /** A step that replaces or ends the running activation and moves no node. */
  ghost predicate TopOnly(s: State, s': State, c: nat)
    requires c < |s.cpus| && s.cpus[c].stack != []
  {
    var top := |s.cpus[c].stack| - 1;
    && Quiet(s, s', c) && Control(s'.cpus[c])
    && top <= |s'.cpus[c].stack| <= top + 1 && s'.cpus[c].stack[..top] == s.cpus[c].stack[..top]
  }

  lemma EnterLoadShape(s: State, c: nat)
    requires c < |s.cpus| && s.cpus[c].stack != [] && Top(s, c).EnterLoad? && Control(s.cpus[c]) && WindowOk(s, c) && FrameOk(s, Top(s, c))
    ensures var s', top := EnterStep(s, c), |s.cpus[c].stack| - 1;
            TopOnly(s, s', c) && (|s'.cpus[c].stack| > top ==> QuietFrame(s, s', c, top))
  {
  }

  lemma EnterStoreShape(s: State, c: nat)
    requires c < |s.cpus| && s.cpus[c].stack != [] && Top(s, c).EnterStore? && Control(s.cpus[c]) && WindowOk(s, c) && FrameOk(s, Top(s, c))
    ensures var s', top := EnterStep(s, c), |s.cpus[c].stack| - 1;
            TopOnly(s, s', c) && (|s'.cpus[c].stack| > top ==> QuietFrame(s, s', c, top))
  {
  }

  lemma EnterFlagShape(s: State, c: nat)
    requires c < |s.cpus| && s.cpus[c].stack != [] && Top(s, c).EnterFlag? && Control(s.cpus[c]) && WindowOk(s, c) && FrameOk(s, Top(s, c))
    ensures var s', top := EnterStep(s, c), |s.cpus[c].stack| - 1;
            TopOnly(s, s', c) && (|s'.cpus[c].stack| > top ==> QuietFrame(s, s', c, top))
  {
  }

  lemma EnterKept(s: State, c: nat)
    requires HistoryOk(s) && c < |s.cpus| && CpuOk(s, c) && s.cpus[c].stack != [] && IsEnter(Top(s, c))
    ensures Moves(s, EnterStep(s, c), c) && CpuOk(EnterStep(s, c), c) && HistoryOk(EnterStep(s, c))
  {
    match Top(s, c) {
      case EnterLoad => EnterLoadShape(s, c);
      case EnterStore(_) => EnterStoreShape(s, c);
      case EnterFlag => EnterFlagShape(s, c);
    }
    QuietKept(s, EnterStep(s, c), c, |s.cpus[c].stack| - 1);
  }

  lemma ExitKept(s: State, c: nat)
    requires HistoryOk(s) && c < |s.cpus| && CpuOk(s, c) && s.cpus[c].stack != []
    requires Top(s, c).ExitClear? || Top(s, c).ExitAdvance?
    ensures Moves(s, ExitStep(s, c), c) && CpuOk(ExitStep(s, c), c) && HistoryOk(ExitStep(s, c))
  {
    QuietKept(s, ExitStep(s, c), c, |s.cpus[c].stack| - 1);
  }

  /** Looking at one more CPU: an idle one holds nothing, an active one bounds what it may hold. */
  lemma ScanVisit(s: State, f: Frame, i: nat, safe: nat)
    requires IsScan(f) && ScanOk(s, f) && Visited(s, f) == i < |s.cpus| && safe <= f.safe
    requires Control(s.cpus[i]) && WindowOk(s, i)
    requires s.cpus[i].active ==> safe <= s.cpus[i].local
    ensures ScanOk(s, ScanFlag(f.start, i + 1, safe))
  {
  }

  /** The bound the scan holds after its next load is sound in the current state. */
  lemma ScanFlagBound(s: State, c: nat)
    requires c < |s.cpus| && s.cpus[c].stack != [] && Top(s, c).ScanFlag?
    requires FrameOk(s, Top(s, c)) && ScanOk(s, Top(s, c))
    requires Top(s, c).i < |s.cpus| ==> Control(s.cpus[Top(s, c).i]) && WindowOk(s, Top(s, c).i)
    ensures |ScanStep(s, c).cpus| == |s.cpus|
    ensures |ScanStep(s, c).cpus[c].stack| == |s.cpus[c].stack| ==>
              QuietFrame(s, ScanStep(s, c), c, |s.cpus[c].stack| - 1)
  {
    var f := Top(s, c);
    if f.i < |s.cpus| && !s.cpus[f.i].active {
      ScanVisit(s, f, f.i, f.safe);
    }
  }

  lemma ScanLocalBound(s: State, c: nat)
    requires c < |s.cpus| && s.cpus[c].stack != [] && Top(s, c).ScanLocal?
    requires FrameOk(s, Top(s, c)) && ScanOk(s, Top(s, c))
    requires Control(s.cpus[Top(s, c).i]) && WindowOk(s, Top(s, c).i)
    ensures |ScanStep(s, c).cpus| == |s.cpus|
    ensures |ScanStep(s, c).cpus[c].stack| == |s.cpus[c].stack| ==>
              QuietFrame(s, ScanStep(s, c), c, |s.cpus[c].stack| - 1)
  {
    var f := Top(s, c);
    ScanVisit(s, f, f.i, Min(f.safe, s.cpus[f.i].local));
  }

  lemma ScanEndBound(s: State, c: nat)
    requires c < |s.cpus| && s.cpus[c].stack != [] && (Top(s, c).ScanCount? || Top(s, c).Callback?)
    requires FrameOk(s, Top(s, c)) && ScanOk(s, Top(s, c))
    ensures |ScanStep(s, c).cpus| == |s.cpus|
    ensures |ScanStep(s, c).cpus[c].stack| == |s.cpus[c].stack| ==>
              QuietFrame(s, ScanStep(s, c), c, |s.cpus[c].stack| - 1)
  {
  }

  lemma ScanStepBound(s: State, c: nat)
    requires c < |s.cpus| && s.cpus[c].stack != [] && IsScan(Top(s, c)) && !Top(s, c).ScanSlot?
    requires FrameOk(s, Top(s, c)) && ScanOk(s, Top(s, c))
    requires (Top(s, c).ScanFlag? || Top(s, c).ScanLocal?) && Top(s, c).i < |s.cpus| ==>
               Control(s.cpus[Top(s, c).i]) && WindowOk(s, Top(s, c).i)
    ensures |ScanStep(s, c).cpus| == |s.cpus|
    ensures |ScanStep(s, c).cpus[c].stack| == |s.cpus[c].stack| ==>
              QuietFrame(s, ScanStep(s, c), c, |s.cpus[c].stack| - 1)
  {
    match Top(s, c)
    case ScanFlag(_, _, _) => ScanFlagBound(s, c);
    case ScanLocal(_, _, _) => ScanLocalBound(s, c);
    case _ => ScanEndBound(s, c);
  }

  lemma ScanStartBound(s: State, c: nat)
    requires HistoryOk(s) && c < |s.cpus| && s.cpus[c].stack != [] && Top(s, c).ScanStart?
    ensures |ScanStep(s, c).cpus| == |s.cpus| && |ScanStep(s, c).cpus[c].stack| == |s.cpus[c].stack|
    ensures QuietFrame(s, ScanStep(s, c), c, |s.cpus[c].stack| - 1)
  {
  }

  lemma ScanStartShape(s: State, c: nat)
    requires c < |s.cpus| && s.cpus[c].stack != [] && Control(s.cpus[c]) && WindowOk(s, c) && Top(s, c).ScanStart?
    ensures TopOnly(s, ScanStep(s, c), c)
  {
  }

  lemma ScanFlagShape(s: State, c: nat)
    requires c < |s.cpus| && s.cpus[c].stack != [] && Control(s.cpus[c]) && WindowOk(s, c) && Top(s, c).ScanFlag?
    ensures TopOnly(s, ScanStep(s, c), c)
  {
  }

  lemma ScanLocalShape(s: State, c: nat)
    requires c < |s.cpus| && s.cpus[c].stack != [] && Control(s.cpus[c]) && WindowOk(s, c) && Top(s, c).ScanLocal?
    ensures TopOnly(s, ScanStep(s, c), c)
  {
  }

  lemma ScanCountShape(s: State, c: nat)
    requires c < |s.cpus| && s.cpus[c].stack != [] && Control(s.cpus[c]) && WindowOk(s, c) && Top(s, c).ScanCount?
    ensures TopOnly(s, ScanStep(s, c), c)
  {
  }

  lemma CallbackShape(s: State, c: nat)
    requires c < |s.cpus| && s.cpus[c].stack != [] && Control(s.cpus[c]) && WindowOk(s, c) && Top(s, c).Callback?
    ensures TopOnly(s, ScanStep(s, c), c)
  {
  }

  lemma ScanStepShape(s: State, c: nat)
    requires c < |s.cpus| && s.cpus[c].stack != [] && Control(s.cpus[c]) && WindowOk(s, c)
    requires Top(s, c).ScanStart? || Top(s, c).ScanFlag? || Top(s, c).ScanLocal? || Top(s, c).ScanCount?
             || Top(s, c).Callback?
    ensures TopOnly(s, ScanStep(s, c), c)
  {
    match Top(s, c)
    case ScanStart => ScanStartShape(s, c);
    case ScanFlag(_, _, _) => ScanFlagShape(s, c);
    case ScanLocal(_, _, _) => ScanLocalShape(s, c);
    case ScanCount(_, _) => ScanCountShape(s, c);
    case Callback(_, _, _) => CallbackShape(s, c);
  }

  lemma ScanStepKept(s: State, c: nat)
    requires Inv(s) && c < |s.cpus| && s.cpus[c].stack != []
    requires Top(s, c).ScanStart? || Top(s, c).ScanFlag? || Top(s, c).ScanLocal? || Top(s, c).ScanCount?
             || Top(s, c).Callback?
    ensures Moves(s, ScanStep(s, c), c) && CpuOk(ScanStep(s, c), c) && HistoryOk(ScanStep(s, c))
  {
    assert CpuOk(s, c);
    var f := Top(s, c);
    if f.ScanStart? {
      ScanStartBound(s, c);
    } else {
      if (f.ScanFlag? || f.ScanLocal?) && f.i < |s.cpus| {
        assert CpuOk(s, f.i);
      }
      ScanStepBound(s, c);
    }
    ScanStepShape(s, c);
    QuietKept(s, ScanStep(s, c), c, |s.cpus[c].stack| - 1);
  }

  /** The heart of the argument: an expired record's node is in no open section. */
  lemma ExpiredIsUnreachable(s: State, c: nat)
    requires Inv(s) && c < |s.cpus| && s.cpus[c].stack != [] && Top(s, c).ScanSlot?
    requires Top(s, c).j < |s.cpus[c].recs| && Expired(s.cpus[c].recs[Top(s, c).j], Top(s, c).safe)
    ensures forall d :: 0 <= d < |s.cpus| ==> s.cpus[c].recs[Top(s, c).j].node !in s.cpus[d].window
  {
    assert CpuOk(s, c);
    var f := Top(s, c);
    assert OwnedSlot(s, c, f.j) && ScanOk(s, f);
  }

  lemma FreeHistory(s: State, c: nat)
    requires HistoryOk(s) && c < |s.cpus| && WindowOk(s, c) && s.cpus[c].stack != [] && Top(s, c).ScanSlot?
    requires Top(s, c).j < |s.cpus[c].recs| && Expired(s.cpus[c].recs[Top(s, c).j], Top(s, c).safe)
    requires OwnedSlot(s, c, Top(s, c).j)
    ensures HistoryOk(SweepStep(s, c))
  {
  }

  lemma FreeMoves(s: State, c: nat)
    requires HistoryOk(s) && c < |s.cpus| && WindowOk(s, c) && s.cpus[c].stack != [] && Top(s, c).ScanSlot?
    requires Top(s, c).j < |s.cpus[c].recs| && Expired(s.cpus[c].recs[Top(s, c).j], Top(s, c).safe)
    requires OwnedSlot(s, c, Top(s, c).j)
    requires forall d :: 0 <= d < |s.cpus| ==> s.cpus[c].recs[Top(s, c).j].node !in s.cpus[d].window
    ensures Moves(s, SweepStep(s, c), c) && HistoryOk(SweepStep(s, c)) && WindowOk(SweepStep(s, c), c)
  {
    FreeHistory(s, c);
  }

  lemma FreeBelow(s: State, c: nat)
    requires c < |s.cpus| && |s.cpus[c].recs| == SLOTS && s.cpus[c].stack != [] && Top(s, c).ScanSlot?
    requires Top(s, c).j < SLOTS && Expired(s.cpus[c].recs[Top(s, c).j], Top(s, c).safe) && OwnedSlot(s, c, Top(s, c).j)
    ensures BelowKept(s, SweepStep(s, c), c, |s.cpus[c].stack| - 1)
  {
  }

  lemma FreeAbove(s: State, c: nat)
    requires c < |s.cpus| && |s.cpus[c].recs| == SLOTS && s.cpus[c].count == UsedSlots(s.cpus[c].recs) && Control(s.cpus[c])
    requires s.cpus[c].stack != [] && Top(s, c).ScanSlot?
    requires Top(s, c).j < SLOTS && Expired(s.cpus[c].recs[Top(s, c).j], Top(s, c).safe)
    requires FrameOk(SweepStep(s, c), Top(s, c)) && ScanOk(SweepStep(s, c), Top(s, c))
    ensures AboveOk(s, SweepStep(s, c), c, |s.cpus[c].stack| - 1)
  {
    UsedSlotsUpdate(s.cpus[c].recs, Top(s, c).j, Unused);
  }

  lemma FreeKept(s: State, c: nat)
    requires c < |s.cpus| && CpuOk(s, c) && s.cpus[c].stack != [] && Top(s, c).ScanSlot?
    requires Top(s, c).j < |s.cpus[c].recs| && Expired(s.cpus[c].recs[Top(s, c).j], Top(s, c).safe)
    requires Moves(s, SweepStep(s, c), c) && WindowOk(SweepStep(s, c), c)
    ensures CpuOk(SweepStep(s, c), c)
  {
    assert OwnedSlot(s, c, Top(s, c).j);
    FrameKept(s, SweepStep(s, c), c, Top(s, c));
    FreeBelow(s, c);
    FreeAbove(s, c);
    MoverRebuilt(s, SweepStep(s, c), c, |s.cpus[c].stack| - 1);
  }

  lemma SweepShape(s: State, c: nat)
    requires c < |s.cpus| && s.cpus[c].stack != [] && Top(s, c).ScanSlot? && Control(s.cpus[c]) && WindowOk(s, c)
    requires FrameOk(s, Top(s, c)) && ScanOk(s, Top(s, c))
    requires Top(s, c).j >= |s.cpus[c].recs| || !Expired(s.cpus[c].recs[Top(s, c).j], Top(s, c).safe)
    ensures var s', top := SweepStep(s, c), |s.cpus[c].stack| - 1;
            TopOnly(s, s', c) && (|s'.cpus[c].stack| > top ==> QuietFrame(s, s', c, top))
  {
  }

  lemma SweepKept(s: State, c: nat)
    requires Inv(s) && c < |s.cpus| && s.cpus[c].stack != [] && Top(s, c).ScanSlot?
    ensures Moves(s, SweepStep(s, c), c) && CpuOk(SweepStep(s, c), c) && HistoryOk(SweepStep(s, c))
  {
    assert CpuOk(s, c);
    var f := Top(s, c);
    if f.j < SLOTS && Expired(s.cpus[c].recs[f.j], f.safe) {
      assert OwnedSlot(s, c, f.j);
      ExpiredIsUnreachable(s, c);
      FreeMoves(s, c);
      FreeKept(s, c);
    } else {
      SweepShape(s, c);
      QuietKept(s, SweepStep(s, c), c, |s.cpus[c].stack| - 1);
    }
  }

  lemma RetireLoadMoves(s: State, c: nat)
    requires HistoryOk(s) && c < |s.cpus| && WindowOk(s, c) && s.cpus[c].stack != [] && Top(s, c).RetireLoad?
    requires OwnedFrame(s, c, |s.cpus[c].stack| - 1)
    ensures Moves(s, RetireLoadStep(s, c), c) && HistoryOk(RetireLoadStep(s, c)) && WindowOk(RetireLoadStep(s, c), c)
  {
  }

  lemma RetireLoadBelow(s: State, c: nat)
    requires c < |s.cpus| && |s.cpus[c].recs| == SLOTS && s.cpus[c].stack != [] && Top(s, c).RetireLoad?
    ensures BelowKept(s, RetireLoadStep(s, c), c, |s.cpus[c].stack| - 1)
  {
  }

  lemma RetireLoadAbove(s: State, c: nat)
    requires c < |s.cpus| && |s.cpus[c].recs| == SLOTS && s.cpus[c].count == UsedSlots(s.cpus[c].recs) && Control(s.cpus[c])
    requires s.cpus[c].stack != [] && Top(s, c).RetireLoad? && OwnedFrame(s, c, |s.cpus[c].stack| - 1)
    ensures AboveOk(s, RetireLoadStep(s, c), c, |s.cpus[c].stack| - 1)
  {
    var s', top := RetireLoadStep(s, c), |s.cpus[c].stack| - 1;
    assert s'.cpus[c].stack[top].RetireFind? && s'.cpus[c].stack[top + 1].ScanStart?;
  }

  lemma RetireLoadKept(s: State, c: nat)
    requires HistoryOk(s) && c < |s.cpus| && CpuOk(s, c) && s.cpus[c].stack != [] && Top(s, c).RetireLoad?
    ensures Moves(s, RetireLoadStep(s, c), c) && CpuOk(RetireLoadStep(s, c), c) && HistoryOk(RetireLoadStep(s, c))
  {
    assert OwnedFrame(s, c, |s.cpus[c].stack| - 1);
    RetireLoadMoves(s, c);
    RetireLoadOwn(s, c);
  }

  lemma RetireLoadOwn(s: State, c: nat)
    requires c < |s.cpus| && CpuOk(s, c) && s.cpus[c].stack != [] && Top(s, c).RetireLoad?
    requires Moves(s, RetireLoadStep(s, c), c) && WindowOk(RetireLoadStep(s, c), c)
    ensures CpuOk(RetireLoadStep(s, c), c)
  {
    assert OwnedFrame(s, c, |s.cpus[c].stack| - 1);
    RetireLoadBelow(s, c);
    RetireLoadAbove(s, c);
    MoverRebuilt(s, RetireLoadStep(s, c), c, |s.cpus[c].stack| - 1);
  }

  /** The retirement ends: the node goes to a slot, or is leaked because the table stayed full. */
  predicate Settles(s: State, c: nat)
    requires c < |s.cpus| && s.cpus[c].stack != [] && Top(s, c).RetireFind?
  {
    var f := Top(s, c);
    if f.j < |s.cpus[c].recs| then s.cpus[c].recs[f.j].Unused? else f.lastTry
  }

  lemma SettleHistory(s: State, c: nat)
    requires HistoryOk(s) && c < |s.cpus| && s.cpus[c].stack != [] && Top(s, c).RetireFind?
    requires OwnedFrame(s, c, |s.cpus[c].stack| - 1) && Settles(s, c)
    ensures HistoryOk(RetireFindStep(s, c))
  {
  }

  lemma SettleMoves(s: State, c: nat)
    requires HistoryOk(s) && c < |s.cpus| && WindowOk(s, c) && s.cpus[c].stack != [] && Top(s, c).RetireFind?
    requires OwnedFrame(s, c, |s.cpus[c].stack| - 1) && Settles(s, c)
    ensures Moves(s, RetireFindStep(s, c), c) && WindowOk(RetireFindStep(s, c), c)
  {
  }

  lemma SettleBelow(s: State, c: nat)
    requires c < |s.cpus| && |s.cpus[c].recs| == SLOTS && s.cpus[c].stack != [] && Top(s, c).RetireFind?
    requires OwnedFrame(s, c, |s.cpus[c].stack| - 1) && Settles(s, c)
    ensures BelowKept(s, RetireFindStep(s, c), c, |s.cpus[c].stack| - 1)
  {
  }

  lemma SettleAbove(s: State, c: nat)
    requires c < |s.cpus| && |s.cpus[c].recs| == SLOTS && s.cpus[c].count == UsedSlots(s.cpus[c].recs) && Control(s.cpus[c])
    requires s.cpus[c].stack != [] && Top(s, c).RetireFind? && OwnedFrame(s, c, |s.cpus[c].stack| - 1) && Settles(s, c)
    ensures AboveOk(s, RetireFindStep(s, c), c, |s.cpus[c].stack| - 1)
  {
    var f := Top(s, c);
    if f.j < SLOTS {
      UsedSlotsUpdate(s.cpus[c].recs, f.j, Rec(f.node, f.epoch));
    }
  }

  lemma SettleKept(s: State, c: nat)
    requires c < |s.cpus| && CpuOk(s, c) && s.cpus[c].stack != [] && Top(s, c).RetireFind?
    requires Settles(s, c)
    requires Moves(s, RetireFindStep(s, c), c) && WindowOk(RetireFindStep(s, c), c)
    ensures CpuOk(RetireFindStep(s, c), c)
  {
    assert OwnedFrame(s, c, |s.cpus[c].stack| - 1);
    SettleBelow(s, c);
    SettleAbove(s, c);
    MoverRebuilt(s, RetireFindStep(s, c), c, |s.cpus[c].stack| - 1);
  }

  /** The search goes on, or another reclaim starts before it does. */
  lemma SearchShape(s: State, c: nat)
    requires c < |s.cpus| && s.cpus[c].stack != [] && Top(s, c).RetireFind? && !Settles(s, c) && Control(s.cpus[c]) && WindowOk(s, c)
    ensures var s', top := RetireFindStep(s, c), |s.cpus[c].stack| - 1;
            && Quiet(s, s', c) && Control(s'.cpus[c]) && top <= |s'.cpus[c].stack| && s'.cpus[c].stack[..top] == s.cpus[c].stack[..top]
            && forall k :: top <= k < |s'.cpus[c].stack| ==> QuietFrame(s, s', c, k)
  {
    var f := Top(s, c);
    if f.j < |s.cpus[c].recs| {
      SearchOn(s, c);
    } else {
      SearchAgain(s, c);
    }
  }

  lemma SearchOn(s: State, c: nat)
    requires c < |s.cpus| && s.cpus[c].stack != [] && Top(s, c).RetireFind? && !Settles(s, c) && Control(s.cpus[c]) && WindowOk(s, c)
    requires Top(s, c).j < |s.cpus[c].recs|
    ensures var s', top := RetireFindStep(s, c), |s.cpus[c].stack| - 1;
            && Quiet(s, s', c) && Control(s'.cpus[c]) && |s'.cpus[c].stack| == top + 1 && s'.cpus[c].stack[..top] == s.cpus[c].stack[..top]
            && QuietFrame(s, s', c, top)
  {
  }

  lemma SearchAgain(s: State, c: nat)
    requires c < |s.cpus| && s.cpus[c].stack != [] && Top(s, c).RetireFind? && !Settles(s, c) && Control(s.cpus[c]) && WindowOk(s, c)
    requires Top(s, c).j >= |s.cpus[c].recs|
    ensures var s', top := RetireFindStep(s, c), |s.cpus[c].stack| - 1;
            && Quiet(s, s', c) && Control(s'.cpus[c]) && |s'.cpus[c].stack| == top + 2 && s'.cpus[c].stack[..top] == s.cpus[c].stack[..top]
            && QuietFrame(s, s', c, top) && QuietFrame(s, s', c, top + 1)
  {
    var s', top := RetireFindStep(s, c), |s.cpus[c].stack| - 1;
    assert s'.cpus[c].stack[top].RetireFind? && s'.cpus[c].stack[top + 1].ScanStart?;
  }

  lemma RetireFindKept(s: State, c: nat)
    requires HistoryOk(s) && c < |s.cpus| && CpuOk(s, c) && s.cpus[c].stack != [] && Top(s, c).RetireFind?
    ensures Moves(s, RetireFindStep(s, c), c) && CpuOk(RetireFindStep(s, c), c) && HistoryOk(RetireFindStep(s, c))
  {
    if Settles(s, c) {
      assert OwnedFrame(s, c, |s.cpus[c].stack| - 1);
      SettleHistory(s, c);
      SettleMoves(s, c);
      SettleKept(s, c);
    } else {
      SearchShape(s, c);
      QuietKept(s, RetireFindStep(s, c), c, |s.cpus[c].stack| - 1);
    }
  }

  lemma CallEnterControl(cpu: Cpu, a: Action)
    requires Control(cpu) && AtClient(cpu) && a.CallEnter?
    ensures var cpu' := CallStep(cpu, a);
            && Control(cpu') && |cpu.stack| <= |cpu'.stack| && cpu'.stack[..|cpu.stack|] == cpu.stack
            && cpu' == cpu.(depth := cpu'.depth, stack := cpu'.stack, held := cpu'.held)
  {
  }

  lemma CallExitControl(cpu: Cpu, a: Action)
    requires Control(cpu) && AtClient(cpu) && a.CallExit? && cpu.depth > 0
    ensures var cpu' := CallStep(cpu, a);
            && Control(cpu') && |cpu.stack| <= |cpu'.stack| && cpu'.stack[..|cpu.stack|] == cpu.stack
            && cpu' == cpu.(depth := cpu'.depth, stack := cpu'.stack, held := cpu'.held)
  {
  }

  lemma CallOtherControl(cpu: Cpu, a: Action)
    requires Control(cpu) && AtClient(cpu) && (a.CallReclaim? || (a.Acquire? && a.node in cpu.window) || a.Drop?)
    ensures var cpu' := CallStep(cpu, a);
            && Control(cpu') && |cpu.stack| <= |cpu'.stack| && cpu'.stack[..|cpu.stack|] == cpu.stack
            && cpu' == cpu.(depth := cpu'.depth, stack := cpu'.stack, held := cpu'.held)
  {
  }

  lemma CallControl(cpu: Cpu, a: Action)
    requires Control(cpu) && AtClient(cpu)
    requires a.CallEnter? || a.CallExit? || a.CallReclaim? || (a.Acquire? && a.node in cpu.window) || a.Drop?
    requires a.CallExit? ==> cpu.depth > 0
    ensures var cpu' := CallStep(cpu, a);
            && Control(cpu')
            && cpu'.stack[..|cpu.stack|] == cpu.stack
            && cpu' == cpu.(depth := cpu'.depth, stack := cpu'.stack, held := cpu'.held)
  {
    if a.CallEnter? { CallEnterControl(cpu, a); } else if a.CallExit? { CallExitControl(cpu, a); } else { CallOtherControl(cpu, a); }
  }

  lemma CallQuiet(s: State, s': State, c: nat)
    requires c < |s.cpus| && WindowOk(s, c) && c < |s'.cpus|
    requires s' == SetCpu(s, c, s'.cpus[c])
    requires s'.cpus[c] == s.cpus[c].(depth := s'.cpus[c].depth, stack := s'.cpus[c].stack, held := s'.cpus[c].held)
    requires |s.cpus[c].stack| <= |s'.cpus[c].stack| && s'.cpus[c].stack[..|s.cpus[c].stack|] == s.cpus[c].stack
    requires forall k :: |s.cpus[c].stack| <= k < |s'.cpus[c].stack| ==>
               var f := s'.cpus[c].stack[k]; f.EnterLoad? || f.ExitClear? || f.ScanStart?
    ensures Quiet(s, s', c)
    ensures forall k :: |s.cpus[c].stack| <= k < |s'.cpus[c].stack| ==> QuietFrame(s, s', c, k)
  {
  }

  lemma CallShape(s: State, c: nat, a: Action, s': State)
    requires c < |s.cpus| && AtClient(s.cpus[c]) && Control(s.cpus[c]) && WindowOk(s, c)
    requires a.CallEnter? || a.CallExit? || a.CallReclaim? || (a.Acquire? && a.node in s.cpus[c].window) || a.Drop?
    requires a.CallExit? ==> s.cpus[c].depth > 0
    requires s' == SetCpu(s, c, CallStep(s.cpus[c], a))
    ensures Quiet(s, s', c) && Control(s'.cpus[c])
    ensures |s.cpus[c].stack| <= |s'.cpus[c].stack| && s'.cpus[c].stack[..|s.cpus[c].stack|] == s.cpus[c].stack
    ensures forall k :: |s.cpus[c].stack| <= k < |s'.cpus[c].stack| ==> QuietFrame(s, s', c, k)
  {
    CallControl(s.cpus[c], a);
    CallQuiet(s, s', c);
  }

  lemma CallKept(s: State, c: nat, a: Action, s': State)
    requires HistoryOk(s) && c < |s.cpus| && AtClient(s.cpus[c]) && CpuOk(s, c)
    requires a.CallEnter? || a.CallExit? || a.CallReclaim? || (a.Acquire? && a.node in s.cpus[c].window) || a.Drop?
    requires a.CallExit? ==> s.cpus[c].depth > 0
    requires s' == SetCpu(s, c, CallStep(s.cpus[c], a))
    ensures Moves(s, s', c) && CpuOk(s', c) && HistoryOk(s')
  {
    CallShape(s, c, a, s');
    QuietKept(s, s', c, |s.cpus[c].stack|);
  }

  /** Client nodes change hands: no slot or activation is affected. */
  lemma ClientMove(s: State, s': State, c: nat)
    requires c < |s.cpus| && CpuOk(s, c) && Moves(s, s', c) && WindowOk(s', c)
    requires s'.cpus[c].recs == s.cpus[c].recs && s'.cpus[c].count == s.cpus[c].count && Control(s'.cpus[c])
    requires AtClient(s.cpus[c])
    requires |s.cpus[c].stack| <= |s'.cpus[c].stack| && s'.cpus[c].stack[..|s.cpus[c].stack|] == s.cpus[c].stack
    requires forall n :: n in s.place && s.place[n] != Linked && s.place[n] != Unlinked ==> s'.place[n] == s.place[n]
    requires forall k :: |s.cpus[c].stack| <= k < |s'.cpus[c].stack| ==>
               s'.cpus[c].stack[k].RetireLoad? && OwnedFrame(s', c, k)
    ensures CpuOk(s', c)
  {
    MoverKept(s, s', c, |s.cpus[c].stack|);
    SlotsKept(s, s', c);
  }

  lemma CallRetireHistory(s: State, c: nat, n: Node)
    requires HistoryOk(s) && c < |s.cpus| && n in s.place && s.place[n] == Unlinked
    ensures HistoryOk(CallRetireStep(s, c, n))
  {
  }

  lemma CallRetireMoves(s: State, c: nat, n: Node)
    requires HistoryOk(s) && c < |s.cpus| && WindowOk(s, c) && n in s.place && s.place[n] == Unlinked
    ensures var s' := CallRetireStep(s, c, n); Moves(s, s', c) && HistoryOk(s') && WindowOk(s', c)
  {
    CallRetireHistory(s, c, n);
  }

  lemma CallRetireShape(s: State, c: nat, n: Node)
    requires HistoryOk(s) && c < |s.cpus| && AtClient(s.cpus[c]) && Control(s.cpus[c]) && n in s.place && s.place[n] == Unlinked
    ensures var s', top := CallRetireStep(s, c, n), |s.cpus[c].stack|;
            && |s'.cpus| == |s.cpus| && s'.cpus[c].recs == s.cpus[c].recs && s'.cpus[c].count == s.cpus[c].count && Control(s'.cpus[c])
            && |s'.cpus[c].stack| == top + 1 && s'.cpus[c].stack[..top] == s.cpus[c].stack
            && s'.cpus[c].stack[top].RetireLoad? && OwnedFrame(s', c, top)
            && s'.place == s.place[n := InFrame(c, top)]
  {
  }

  lemma CallRetireKept(s: State, c: nat, n: Node)
    requires HistoryOk(s) && c < |s.cpus| && AtClient(s.cpus[c]) && CpuOk(s, c)
    requires n in s.place && s.place[n] == Unlinked
    ensures var s' := CallRetireStep(s, c, n); Moves(s, s', c) && CpuOk(s', c) && HistoryOk(s')
  {
    CallRetireMoves(s, c, n);
    CallRetireShape(s, c, n);
    ClientMove(s, CallRetireStep(s, c, n), c);
  }

  lemma UnlinkMoves(s: State, c: nat, n: Node)
    requires HistoryOk(s) && c < |s.cpus| && WindowOk(s, c) && n in s.place && s.place[n] == Linked
    ensures var s' := s.(place := s.place[n := Unlinked]); Moves(s, s', c) && HistoryOk(s') && WindowOk(s', c)
  {
  }

  lemma UnlinkKept(s: State, c: nat, n: Node)
    requires HistoryOk(s) && c < |s.cpus| && AtClient(s.cpus[c]) && CpuOk(s, c)
    requires n in s.place && s.place[n] == Linked
    ensures var s' := s.(place := s.place[n := Unlinked]); Moves(s, s', c) && CpuOk(s', c) && HistoryOk(s')
  {
    UnlinkMoves(s, c, n);
    ClientMove(s, s.(place := s.place[n := Unlinked]), c);
  }

  lemma LinkOwned(s: State, n: Node, d: nat)
    requires n !in s.place && d < |s.cpus| && Owned(s, d)
    ensures Owned(LinkStep(s, n), d)
  {
    var s' := LinkStep(s, n);
    forall k | 0 <= k < |s'.cpus[d].stack|
      ensures OwnedFrame(s', d, k)
    {
      assert OwnedFrame(s, d, k);
    }
    forall j | 0 <= j < |s'.cpus[d].recs|
      ensures OwnedSlot(s', d, j)
    {
      assert OwnedSlot(s, d, j);
    }
  }

  lemma LinkScan(s: State, n: Node, f: Frame)
    requires HistoryOk(s) && n !in s.place && IsScan(f) && ScanOk(s, f)
    ensures ScanOk(LinkStep(s, n), f)
  {
  }

  lemma LinkCpuKept(s: State, n: Node, d: nat)
    requires HistoryOk(s) && n !in s.place && d < |s.cpus| && CpuOk(s, d)
    ensures CpuOk(LinkStep(s, n), d)
  {
    var s' := LinkStep(s, n);
    LinkOwned(s, n, d);
    forall k | 0 <= k < |s'.cpus[d].stack| && IsScan(s'.cpus[d].stack[k])
      ensures ScanOk(s', s'.cpus[d].stack[k])
    {
      LinkScan(s, n, s.cpus[d].stack[k]);
    }
  }

  lemma LinkKept(s: State, n: Node)
    requires Inv(s) && n !in s.place
    ensures Inv(LinkStep(s, n))
  {
    forall d | 0 <= d < |s.cpus|
      ensures CpuOk(LinkStep(s, n), d)
    {
      assert CpuOk(s, d);
      LinkCpuKept(s, n, d);
    }
  }

  lemma ApplyInv(s: State, c: nat, a: Action)
    requires Inv(s) && Enabled(s, c, a)
    ensures Inv(Apply(s, c, a))
  {
    assert CpuOk(s, c);
    if a.Link? {
      LinkKept(s, a.node);
    } else {
      var s' := Apply(s, c, a);
      MoverOk(s, c, a);
      forall d | 0 <= d < |s'.cpus|
        ensures CpuOk(s', d)
      {
        if d != c {
          assert CpuOk(s, d);
          OtherKept(s, s', c, d);
        }
      }
    }
  }

  lemma MoverOk(s: State, c: nat, a: Action)
    requires Inv(s) && Enabled(s, c, a) && !a.Link?
    ensures Moves(s, Apply(s, c, a), c) && CpuOk(Apply(s, c, a), c) && HistoryOk(Apply(s, c, a))
  {
    assert CpuOk(s, c);
    if a.CallRetire? {
      CallRetireKept(s, c, a.node);
    } else if a.Unlink? {
      UnlinkKept(s, c, a.node);
    } else if !a.Advance? {
      CallKept(s, c, a, Apply(s, c, a));
    } else {
      var f := Top(s, c);
      if IsEnter(f) { EnterKept(s, c); }
      else if f.ExitClear? || f.ExitAdvance? { ExitKept(s, c); }
      else if f.ScanSlot? { SweepKept(s, c); }
      else if f.RetireLoad? { RetireLoadKept(s, c); }
      else if f.RetireFind? { RetireFindKept(s, c); }
      else { ScanStepKept(s, c); }
    }
  }

  // ---------------------------------------------------------------------------------------------
  // Safety of every run
  // ---------------------------------------------------------------------------------------------

  /** A choice of which CPU does what, one entry per step. */
  type Schedule = seq<(nat, Action)>

  ghost predicate IsRun(run: seq<State>, choices: Schedule)
  {
    && |run| == |choices| + 1
    && Init(run[0])
    && forall i {:trigger choices[i]} :: 0 <= i < |choices| ==>
         Enabled(run[i], choices[i].0, choices[i].1) && run[i + 1] == Apply(run[i], choices[i].0, choices[i].1)
  }

  lemma {:induction false} RunInv(run: seq<State>, choices: Schedule, i: nat)
    requires IsRun(run, choices) && i < |run|
    ensures Inv(run[i])
  {
    if i == 0 {
      InitInv(run[0]);
    } else {
      RunInv(run, choices, i - 1);
      ApplyInv(run[i - 1], choices[i - 1].0, choices[i - 1].1);
    }
  }

  /**
   In every interleaving on any number of CPUs a node is freed at most once, and a node that a
   section could reach at any moment since it opened is not freed while that section is open.
   */
  lemma NoUseAfterFree(run: seq<State>, choices: Schedule, i: nat, n: Node)
    requires IsRun(run, choices) && i < |run|
    ensures run[i].freed[n] <= 1
    ensures forall c :: 0 <= c < |run[i].cpus| && run[i].cpus[c].active && n in run[i].cpus[c].window ==>
              run[i].freed[n] == 0
    ensures forall c :: 0 <= c < |run[i].cpus| && n in run[i].cpus[c].held ==>
              run[i].cpus[c].active && run[i].freed[n] == 0
  {
    RunInv(run, choices, i);
    forall c | 0 <= c < |run[i].cpus| && n in run[i].cpus[c].window
      ensures run[i].cpus[c].active && run[i].freed[n] == 0
    {
      assert CpuOk(run[i], c);
    }
    forall c | 0 <= c < |run[i].cpus| && n in run[i].cpus[c].held
      ensures run[i].cpus[c].active && run[i].freed[n] == 0
    {
      assert CpuOk(run[i], c) && n in run[i].cpus[c].window;
    }
  }

  /**
   A scan frees only records whose retirement was called before the scan loaded the global epoch.
   In particular a record retired by a free callback is not freed by the scan that runs the
   callback, although that scan may still reach its slot.
   */
  lemma ScanSparesLaterRetirements(run: seq<State>, choices: Schedule, i: nat, n: Node)
    requires IsRun(run, choices) && i < |choices|
    requires run[i + 1].freed[n] > run[i].freed[n]
    ensures var (c, a) := choices[i];
            && a == Advance
            && var f := run[i].cpus[c].stack[|run[i].cpus[c].stack| - 1];
            && f.ScanSlot?
            && n in run[i].born && run[i].born[n] <= f.start
            && forall k :: 0 <= k < |run[i].cpus[c].stack| && run[i].cpus[c].stack[k].RetireFind? ==>
                 run[i].cpus[c].stack[k].node != n
  {
    RunInv(run, choices, i);
    FreedBy(run[i], choices[i].0, choices[i].1, n);
    ScanSpares(run[i], choices[i].0, n);
  }

  /** Only a sweep at the node's slot frees it. */
  lemma FreedBy(s: State, c: nat, a: Action, n: Node)
    requires Enabled(s, c, a) && Apply(s, c, a).freed[n] > s.freed[n]
    ensures a == Advance && Top(s, c).ScanSlot? && Top(s, c).j < |s.cpus[c].recs|
    ensures Expired(s.cpus[c].recs[Top(s, c).j], Top(s, c).safe) && s.cpus[c].recs[Top(s, c).j].node == n
  {
    if a != Advance || !Top(s, c).ScanSlot? {
      FreesNothing(s, c, a);
    }
  }

  /** Only the sweep of a scan frees. */
  lemma FreesNothing(s: State, c: nat, a: Action)
    requires Enabled(s, c, a) && (a == Advance ==> !Top(s, c).ScanSlot?)
    ensures Apply(s, c, a).freed == s.freed
  {
  }

  lemma ScanSpares(s: State, c: nat, n: Node)
    requires Inv(s) && c < |s.cpus| && s.cpus[c].stack != [] && Top(s, c).ScanSlot? && Top(s, c).j < |s.cpus[c].recs|
    requires Expired(s.cpus[c].recs[Top(s, c).j], Top(s, c).safe) && s.cpus[c].recs[Top(s, c).j].node == n
    ensures n in s.born && s.born[n] <= Top(s, c).start
    ensures forall k :: 0 <= k < |s.cpus[c].stack| && s.cpus[c].stack[k].RetireFind? ==> s.cpus[c].stack[k].node != n
  {
    assert CpuOk(s, c);
    assert OwnedSlot(s, c, Top(s, c).j) && ScanOk(s, Top(s, c));
    forall k | 0 <= k < |s.cpus[c].stack| && s.cpus[c].stack[k].RetireFind?
      ensures s.cpus[c].stack[k].node != n
    {
      assert OwnedFrame(s, c, k);
    }
  }

  // ---------------------------------------------------------------------------------------------
  // What a scan frees when nothing interferes
  // ---------------------------------------------------------------------------------------------

  /** The smallest epoch of the active sections from CPU i on, bounded by `safe`. */
  function SafeFrom(cpus: seq<Cpu>, i: nat, safe: nat): nat
    decreases |cpus| - i
  {
    if i >= |cpus| then safe
    else SafeFrom(cpus, i + 1, if cpus[i].active then Min(safe, cpus[i].local) else safe)
  }

  /** Declarative reading: the safe epoch is the greatest lower bound of what is active. */
  lemma {:induction false} SafeFromIsMinimum(cpus: seq<Cpu>, i: nat, safe: nat)
    ensures SafeFrom(cpus, i, safe) <= safe
    ensures forall d :: i <= d < |cpus| && cpus[d].active ==> SafeFrom(cpus, i, safe) <= cpus[d].local
    ensures SafeFrom(cpus, i, safe) == safe
            || exists d :: i <= d < |cpus| && cpus[d].active && SafeFrom(cpus, i, safe) == cpus[d].local
    decreases |cpus| - i
  {
    if i < |cpus| {
      SafeFromIsMinimum(cpus, i + 1, if cpus[i].active then Min(safe, cpus[i].local) else safe);
    }
  }

  /** The table after slots j.. were swept. */
  function Swept(recs: seq<Slot>, j: nat, safe: nat): (r: seq<Slot>)
    ensures |r| == |recs|
  {
    seq(|recs|, k requires 0 <= k < |recs| => if k >= j && Expired(recs[k], safe) then Unused else recs[k])
  }

  function ExpiredNodes(recs: seq<Slot>, j: nat, safe: nat): multiset<Node>
    decreases |recs| - j
  {
    if j >= |recs| then multiset{}
    else (if Expired(recs[j], safe) then multiset{recs[j].node} else multiset{}) + ExpiredNodes(recs, j + 1, safe)
  }

  /** CPU c alone goes from the first state of the path to the last. */
  ghost predicate Solo(path: seq<State>, c: nat, s: State, s': State)
  {
    && path != [] && path[0] == s && path[|path| - 1] == s'
    && forall i :: 0 <= i < |path| - 1 ==> StepsTo(path[i], path[i + 1], c)
  }

  ghost predicate StepsTo(s: State, s': State, c: nat)
  {
    c < |s.cpus| && s.cpus[c].stack != [] && s' == Step(s, c)
  }

  lemma SoloTrans(path: seq<State>, path': seq<State>, c: nat, s: State, s': State, s'': State)
    requires Solo(path, c, s, s') && Solo(path', c, s', s'')
    ensures Solo(path + path'[1..], c, s, s'')
  {
    var joined := path + path'[1..];
    forall i | 0 <= i < |joined| - 1
      ensures StepsTo(joined[i], joined[i + 1], c)
    {
      if i < |path| - 1 {
        assert StepsTo(path[i], path[i + 1], c);
      } else {
        var k := i - (|path| - 1);
        assert joined[i] == path'[k] && joined[i + 1] == path'[k + 1];
        assert StepsTo(path'[k], path'[k + 1], c);
      }
    }
  }

  lemma SoloCons(path: seq<State>, c: nat, s: State, s1: State, s': State)
    requires StepsTo(s, s1, c) && Solo(path, c, s1, s')
    ensures Solo([s] + path, c, s, s')
  {
    assert Solo([s, s1], c, s, s1);
    SoloTrans([s, s1], path, c, s, s1, s');
    assert [s, s1] + path[1..] == [s] + path;
  }

  lemma {:induction false} SafeFromFrame(a: seq<Cpu>, b: seq<Cpu>, i: nat, safe: nat)
    requires |a| == |b| && forall d :: 0 <= d < |a| ==> a[d].active == b[d].active && a[d].local == b[d].local
    ensures SafeFrom(a, i, safe) == SafeFrom(b, i, safe)
    decreases |a| - i
  {
    if i < |a| {
      SafeFromFrame(a, b, i + 1, if a[i].active then Min(safe, a[i].local) else safe);
    }
  }

  /** One CPU is looked at. */
  lemma SoloFlag(s: State, c: nat, t: nat, i: nat, safe: nat) returns (path: seq<State>, s': State)
    requires c < |s.cpus| && s.cpus[c].stack != [] && Top(s, c) == ScanFlag(t, i, safe) && i < |s.cpus|
    ensures Solo(path, c, s, s')
    ensures s' == SetCpu(s, c, Become(s.cpus[c], ScanFlag(t, i + 1, if s.cpus[i].active then Min(safe, s.cpus[i].local) else safe)))
  {
    var s1 := ScanStep(s, c);
    assert StepsTo(s, s1, c);
    if s.cpus[i].active {
      s' := SetCpu(s, c, Become(s.cpus[c], ScanFlag(t, i + 1, Min(safe, s.cpus[i].local))));
      SetCpuTwice(s, c, ScanLocal(t, i, safe), s'.cpus[c]);
      assert s1.cpus[c] == Become(s.cpus[c], ScanLocal(t, i, safe)) && s1.cpus[i].local == s.cpus[i].local;
      assert ScanStep(s1, c) == s';
      assert StepsTo(s1, s', c);
      path := [s, s1, s'];
    } else {
      path, s' := [s, s1], s1;
    }
  }

  /** Reading the CPUs one at a time computes the minimum. */
  lemma {:induction false} SoloFlags(s: State, c: nat, t: nat, i: nat, safe: nat) returns (path: seq<State>, s': State)
    requires c < |s.cpus| && s.cpus[c].stack != [] && Top(s, c) == ScanFlag(t, i, safe)
    ensures Solo(path, c, s, s')
    ensures s' == SetCpu(s, c, Become(s.cpus[c], ScanCount(t, SafeFrom(s.cpus, i, safe))))
    decreases |s.cpus| - i
  {
    if i >= |s.cpus| {
      s' := ScanStep(s, c);
      assert StepsTo(s, s', c);
      path := [s, s'];
    } else {
      var safe' := if s.cpus[i].active then Min(safe, s.cpus[i].local) else safe;
      var path1, s1 := SoloFlag(s, c, t, i, safe);
      SafeFromFrame(s.cpus, s1.cpus, i + 1, safe');
      var path2;
      path2, s' := SoloFlags(s1, c, t, i + 1, safe');
      SetCpuTwice(s, c, ScanFlag(t, i + 1, safe'), s'.cpus[c]);
      SoloTrans(path1, path2, c, s, s1, s');
      path := path1 + path2[1..];
    }
  }

  lemma SetCpuTwice(s: State, c: nat, f: Frame, last: Cpu)
    requires c < |s.cpus| && s.cpus[c].stack != []
    ensures SetCpu(SetCpu(s, c, Become(s.cpus[c], f)), c, last) == SetCpu(s, c, last)
    ensures forall g :: Become(Become(s.cpus[c], f), g) == Become(s.cpus[c], g)
  {
    forall g
      ensures Become(Become(s.cpus[c], f), g) == Become(s.cpus[c], g)
    {
      assert Become(Become(s.cpus[c], f), g).stack == Become(s.cpus[c], g).stack;
    }
  }

  /** Nothing but the freed nodes, their places and the sweeping CPU has changed. */
  ghost predicate FreedThese(s: State, s': State, c: nat, nodes: multiset<Node>)
  {
    && |s'.cpus| == |s.cpus| && (forall d :: 0 <= d < |s.cpus| && d != c ==> s'.cpus[d] == s.cpus[d])
    && s'.freed == s.freed + nodes
    && s'.epoch == s.epoch && s'.clock == s.clock && s'.stamp == s.stamp && s'.born == s.born
  }

  ghost predicate SweptTo(s: State, s': State, c: nat, j: nat, safe: nat)
    requires c < |s.cpus| && s.cpus[c].stack != []
  {
    && FreedThese(s, s', c, ExpiredNodes(s.cpus[c].recs, j, safe))
    && s'.cpus[c].recs == Swept(s.cpus[c].recs, j, safe)
    && s'.cpus[c].stack == s.cpus[c].stack[..|s.cpus[c].stack| - 1]
  }

  lemma {:induction false} ExpiredNodesFrame(a: seq<Slot>, b: seq<Slot>, j: nat, safe: nat)
    requires |a| == |b| && forall k :: j <= k < |a| ==> a[k] == b[k]
    ensures ExpiredNodes(a, j, safe) == ExpiredNodes(b, j, safe)
    decreases |a| - j
  {
    if j < |a| {
      ExpiredNodesFrame(a, b, j + 1, safe);
    }
  }

  lemma {:induction false} ExpiredNodesNone(recs: seq<Slot>, j: nat, safe: nat)
    requires forall k :: 0 <= k < |recs| ==> recs[k].Unused?
    ensures ExpiredNodes(recs, j, safe) == multiset{}
    decreases |recs| - j
  {
    if j < |recs| {
      ExpiredNodesNone(recs, j + 1, safe);
    }
  }

  /** One slot and the callback's return, as the rest of the sweep sees them. */
  lemma SoloOneSlot(s: State, c: nat, t: nat, j: nat, safe: nat) returns (path: seq<State>, s': State)
    requires c < |s.cpus| && s.cpus[c].stack != [] && Top(s, c) == ScanSlot(t, j, safe) && j < |s.cpus[c].recs|
    ensures Solo(path, c, s, s')
    ensures var nodes := if Expired(s.cpus[c].recs[j], safe) then multiset{s.cpus[c].recs[j].node} else multiset{};
            && FreedThese(s, s', c, nodes)
            && s'.cpus[c].recs == (if Expired(s.cpus[c].recs[j], safe) then s.cpus[c].recs[j := Unused] else s.cpus[c].recs)
            && s'.cpus[c].stack == s.cpus[c].stack[|s.cpus[c].stack| - 1 := ScanSlot(t, j + 1, safe)]
  {
    var s1 := SweepStep(s, c);
    assert StepsTo(s, s1, c);
    if !Expired(s.cpus[c].recs[j], safe) {
      path, s' := [s, s1], s1;
    } else {
      s' := ScanStep(s1, c);
      assert StepsTo(s1, s', c);
      path := [s, s1, s'];
    }
  }

  lemma SweptToStep(s: State, s1: State, s': State, c: nat, j: nat, safe: nat)
    requires c < |s.cpus| && s.cpus[c].stack != [] && j < |s.cpus[c].recs| && |s1.cpus| == |s.cpus|
    requires |s1.cpus[c].stack| == |s.cpus[c].stack|
    requires s1.cpus[c].stack[..|s.cpus[c].stack| - 1] == s.cpus[c].stack[..|s.cpus[c].stack| - 1]
    requires var r := s.cpus[c].recs[j];
             && FreedThese(s, s1, c, if Expired(r, safe) then multiset{r.node} else multiset{})
             && s1.cpus[c].recs == (if Expired(r, safe) then s.cpus[c].recs[j := Unused] else s.cpus[c].recs)
    requires SweptTo(s1, s', c, j + 1, safe)
    ensures SweptTo(s, s', c, j, safe)
  {
    ExpiredNodesFrame(s.cpus[c].recs, s1.cpus[c].recs, j + 1, safe);
    assert Swept(s1.cpus[c].recs, j + 1, safe) == Swept(s.cpus[c].recs, j, safe);
  }

  lemma {:induction false} SoloSlots(s: State, c: nat, t: nat, j: nat, safe: nat) returns (path: seq<State>, s': State)
    requires c < |s.cpus| && s.cpus[c].stack != [] && Top(s, c) == ScanSlot(t, j, safe)
    ensures Solo(path, c, s, s') && SweptTo(s, s', c, j, safe)
    decreases |s.cpus[c].recs| - j
  {
    if j >= |s.cpus[c].recs| {
      s' := SweepStep(s, c);
      assert StepsTo(s, s', c);
      path := [s, s'];
    } else {
      var path1, s1 := SoloOneSlot(s, c, t, j, safe);
      var path2;
      path2, s' := SoloSlots(s1, c, t, j + 1, safe);
      SweptToStep(s, s1, s', c, j, safe);
      SoloTrans(path1, path2, c, s, s1, s');
      path := path1 + path2[1..];
    }
  }

  /**
   A reclaim call that runs alone, in any state of any run, frees exactly the records of its own
   CPU whose epoch is below the minimum over the global epoch and the open sections, and empties
   exactly their slots.
   */
  lemma ReclaimFreesExpired(s: State, c: nat) returns (path: seq<State>, s': State)
    requires Inv(s) && c < |s.cpus| && s.cpus[c].stack != [] && Top(s, c) == ScanStart
    ensures Solo(path, c, s, s') && SweptTo(s, s', c, 0, SafeFrom(s.cpus, 0, s.epoch))
  {
    assert CpuOk(s, c);
    path, s' := ReclaimAlone(s, c);
  }

  /** From the start of a scan to the count, with the minimum. */
  lemma ReclaimBound(s: State, c: nat) returns (path: seq<State>, s': State)
    requires c < |s.cpus| && s.cpus[c].stack != [] && Top(s, c) == ScanStart
    ensures Solo(path, c, s, s') && s' == SetCpu(s, c, Become(s.cpus[c], ScanCount(s.clock, SafeFrom(s.cpus, 0, s.epoch))))
  {
    var s1 := ScanStep(s, c);
    assert StepsTo(s, s1, c);
    SafeFromFrame(s.cpus, s1.cpus, 0, s.epoch);
    path, s' := SoloFlags(s1, c, s.clock, 0, s.epoch);
    SetCpuTwice(s, c, ScanFlag(s.clock, 0, s.epoch), s'.cpus[c]);
    SoloCons(path, c, s, s1, s');
    path := [s] + path;
  }

  /** From the count on. */
  lemma ReclaimSweep(s: State, c: nat, t: nat, safe: nat) returns (path: seq<State>, s': State)
    requires c < |s.cpus| && s.cpus[c].stack != [] && Top(s, c) == ScanCount(t, safe) && s.cpus[c].count == UsedSlots(s.cpus[c].recs)
    ensures Solo(path, c, s, s') && SweptTo(s, s', c, 0, safe)
  {
    var s1 := ScanStep(s, c);
    assert StepsTo(s, s1, c);
    if s.cpus[c].count <= 0 {
      path, s' := [s, s1], s1;
      UsedSlotsNone(s.cpus[c].recs);
      ExpiredNodesNone(s.cpus[c].recs, 0, safe);
      assert Swept(s.cpus[c].recs, 0, safe) == s.cpus[c].recs;
    } else {
      path, s' := SoloSlots(s1, c, t, 0, safe);
      SoloCons(path, c, s, s1, s');
      path := [s] + path;
    }
  }

  lemma ReclaimAlone(s: State, c: nat) returns (path: seq<State>, s': State)
    requires c < |s.cpus| && s.cpus[c].stack != [] && Top(s, c) == ScanStart
    requires s.cpus[c].count == UsedSlots(s.cpus[c].recs)
    ensures Solo(path, c, s, s') && SweptTo(s, s', c, 0, SafeFrom(s.cpus, 0, s.epoch))
  {
    var path1, s1 := ReclaimBound(s, c);
    var path2;
    path2, s' := ReclaimSweep(s1, c, s.clock, SafeFrom(s.cpus, 0, s.epoch));
    SoloTrans(path1, path2, c, s, s1, s');
    path := path1 + path2[1..];
  }
}

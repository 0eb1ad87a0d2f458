/** Waiting threads and a closing port: what an abandoned thread is, and that the clean reaches every thread it finds queued. */
module RendezvousClosing {
  import opened Rendezvous

  // ---------------------------------------------------------------------------------------------
  // Steps of other threads
  // ---------------------------------------------------------------------------------------------

  /** The step leaves thread u, and who answers for it, alone. */
  ghost predicate Spares(s: State, s': State, u: Tid)
  {
    && WellFormed(s) && WellFormed(s') && |s'.pc| == |s.pc| && u < |s.pc|
    && s'.pc[u] == s.pc[u] && s'.status[u] == s.status[u] && s'.wait[u] == s.wait[u]
    && (u in s'.abandoned <==> u in s.abandoned)
  }

  /** The step drops thread u, which it held, as an error. */
  ghost predicate Drops(s: State, s': State, u: Tid)
  {
    && WellFormed(s) && WellFormed(s') && |s'.pc| == |s.pc| && u < |s.pc|
    && s'.pc[u] == s.pc[u] && s'.status[u] == s.status[u] && s'.wait[u].NoWait?
  }

  /** What a step of a transfer does to thread u, where o is the partner. */
  ghost predicate TransferEffect(s: State, s': State, u: Tid, o: Tid)
  {
    && WellFormed(s) && WellFormed(s') && |s'.pc| == |s.pc| && u < |s.pc| && s'.pc[u] == s.pc[u]
    && (u != o ==> Spares(s, s', u))
    && s'.abandoned <= s.abandoned + {o}
    && (u == o && u !in s.abandoned && u in s'.abandoned ==> Drops(s, s', u))
  }

  lemma CheckReceiverEffect(s: State, t: Tid, ok: bool, u: Tid)
    requires WellFormed(s) && t < |s.pc| && u < |s.pc| && u != t && s.pc[t].CheckReceiver?
    ensures TransferEffect(s, TakeStep(s, t, s.pc[t], ok), u, s.pc[t].o)
  {
  }

  lemma TakePendingEffect(s: State, t: Tid, ok: bool, u: Tid)
    requires WellFormed(s) && t < |s.pc| && u < |s.pc| && u != t && s.pc[t].TakePending?
    ensures TransferEffect(s, TakeStep(s, t, s.pc[t], ok), u, s.pc[t].o)
  {
  }

  lemma TakeQueuedEffect(s: State, t: Tid, ok: bool, u: Tid)
    requires WellFormed(s) && t < |s.pc| && u < |s.pc| && u != t && s.pc[t].TakeQueued?
    ensures TransferEffect(s, TakeStep(s, t, s.pc[t], ok), u, s.pc[t].o)
  {
  }

  lemma CheckSenderEffect(s: State, t: Tid, ok: bool, u: Tid)
    requires WellFormed(s) && t < |s.pc| && u < |s.pc| && u != t && s.pc[t].CheckSender?
    ensures TransferEffect(s, TakeStep(s, t, s.pc[t], ok), u, s.pc[t].o)
  {
  }

  lemma DeliverEffect(s: State, t: Tid, ok: bool, u: Tid)
    requires WellFormed(s) && t < |s.pc| && u < |s.pc| && u != t && s.pc[t].Deliver?
    ensures TransferEffect(s, GiveStep(s, t, s.pc[t], ok), u, s.pc[t].o)
  {
  }

  lemma RecheckReceiverEffect(s: State, t: Tid, ok: bool, u: Tid)
    requires WellFormed(s) && t < |s.pc| && u < |s.pc| && u != t && s.pc[t].RecheckReceiver?
    ensures TransferEffect(s, GiveStep(s, t, s.pc[t], ok), u, s.pc[t].o)
  {
  }

  lemma PutBackEffect(s: State, t: Tid, ok: bool, u: Tid)
    requires WellFormed(s) && t < |s.pc| && u < |s.pc| && u != t && s.pc[t].PutBack?
    ensures TransferEffect(s, GiveStep(s, t, s.pc[t], ok), u, s.pc[t].o)
  {
  }

  lemma WakeEffect(s: State, t: Tid, ok: bool, u: Tid)
    requires WellFormed(s) && t < |s.pc| && u < |s.pc| && u != t && s.pc[t].Wake?
    ensures TransferEffect(s, GiveStep(s, t, s.pc[t], ok), u, s.pc[t].o)
  {
  }

  lemma TakeEffect(s: State, t: Tid, ok: bool, u: Tid)
    requires WellFormed(s) && t < |s.pc| && u < |s.pc| && u != t && IsTake(s.pc[t])
    ensures TransferEffect(s, TakeStep(s, t, s.pc[t], ok), u, s.pc[t].o)
  {
    match s.pc[t]
    case CheckReceiver(_, _, _) => CheckReceiverEffect(s, t, ok, u);
    case TakePending(_, _, _) => TakePendingEffect(s, t, ok, u);
    case TakeQueued(_, _, _) => TakeQueuedEffect(s, t, ok, u);
    case CheckSender(_, _, _, _) => CheckSenderEffect(s, t, ok, u);
  }

  lemma GiveEffect(s: State, t: Tid, ok: bool, u: Tid)
    requires WellFormed(s) && t < |s.pc| && u < |s.pc| && u != t && IsGive(s.pc[t])
    ensures TransferEffect(s, GiveStep(s, t, s.pc[t], ok), u, s.pc[t].o)
  {
    match s.pc[t]
    case Deliver(_, _, _, _) => DeliverEffect(s, t, ok, u);
    case RecheckReceiver(_, _, _, _) => RecheckReceiverEffect(s, t, ok, u);
    case PutBack(_, _, _, _) => PutBackEffect(s, t, ok, u);
    case Wake(_, _, _) => WakeEffect(s, t, ok, u);
  }

  lemma TryMatchSpares(s: State, t: Tid, ok: bool, u: Tid)
    requires WellFormed(s) && t < |s.pc| && u < |s.pc| && u != t && s.pc[t].TryMatch?
    requires s.pc[t].p < |s.ports| && (s.ports[s.pc[t].p].queue != [] ==> u != s.ports[s.pc[t].p].queue[0].thread)
    ensures Spares(s, MatchStep(s, t, s.pc[t], ok), u)
  {
  }

  lemma ClaimSpares(s: State, t: Tid, ok: bool, u: Tid)
    requires WellFormed(s) && t < |s.pc| && u < |s.pc| && u != t && IsMatch(s.pc[t]) && !s.pc[t].TryMatch?
    requires u != s.pc[t].o
    ensures Spares(s, MatchStep(s, t, s.pc[t], ok), u)
  {
  }

  lemma MatchSpares(s: State, t: Tid, ok: bool, u: Tid)
    requires WellFormed(s) && t < |s.pc| && u < |s.pc| && u != t && IsMatch(s.pc[t])
    requires s.pc[t].TryMatch? ==> s.pc[t].p < |s.ports| && (s.ports[s.pc[t].p].queue != [] ==> u != s.ports[s.pc[t].p].queue[0].thread)
    requires !s.pc[t].TryMatch? ==> u != s.pc[t].o
    ensures Spares(s, MatchStep(s, t, s.pc[t], ok), u)
  {
    if s.pc[t].TryMatch? { TryMatchSpares(s, t, ok, u); } else { ClaimSpares(s, t, ok, u); }
  }

  lemma CleanNextSpares(s: State, t: Tid, u: Tid)
    requires WellFormed(s) && t < |s.pc| && u < |s.pc| && u != t && s.pc[t].CleanNext? && s.pc[t].p < |s.ports|
    requires s.ports[s.pc[t].p].queue != [] ==> u != s.ports[s.pc[t].p].queue[0].thread
    ensures Spares(s, CloseStep(s, t, s.pc[t]), u)
  {
  }

  lemma CleanStatusSpares(s: State, t: Tid, u: Tid)
    requires WellFormed(s) && t < |s.pc| && u < |s.pc| && u != t && s.pc[t].CleanStatus?
    requires u != s.pc[t].o
    ensures Spares(s, CloseStep(s, t, s.pc[t]), u)
  {
  }

  lemma CleanPortPtrSpares(s: State, t: Tid, u: Tid)
    requires WellFormed(s) && t < |s.pc| && u < |s.pc| && u != t && s.pc[t].CleanPortPtr?
    requires u != s.pc[t].o
    ensures Spares(s, CloseStep(s, t, s.pc[t]), u)
  {
  }

  lemma CleanFlagSpares(s: State, t: Tid, u: Tid)
    requires WellFormed(s) && t < |s.pc| && u < |s.pc| && u != t && s.pc[t].CleanFlag?
    requires u != s.pc[t].o
    ensures Spares(s, CloseStep(s, t, s.pc[t]), u)
  {
  }

  lemma CleanReadySpares(s: State, t: Tid, u: Tid)
    requires WellFormed(s) && t < |s.pc| && u < |s.pc| && u != t && s.pc[t].CleanReady?
    requires u != s.pc[t].o
    ensures Spares(s, CloseStep(s, t, s.pc[t]), u)
  {
  }

  lemma CleanHeldSpares(s: State, t: Tid, u: Tid)
    requires WellFormed(s) && t < |s.pc| && u < |s.pc| && u != t && IsClose(s.pc[t]) && !s.pc[t].CleanNext? && Holds(s.pc[t])
    requires u != s.pc[t].o
    ensures Spares(s, CloseStep(s, t, s.pc[t]), u)
  {
    match s.pc[t]
    case CleanStatus(_, _) => CleanStatusSpares(s, t, u);
    case CleanPortPtr(_, _, _) => CleanPortPtrSpares(s, t, u);
    case CleanFlag(_, _) => CleanFlagSpares(s, t, u);
    case CleanReady(_, _, _) => CleanReadySpares(s, t, u);
  }

  lemma CloseEndSpares(s: State, t: Tid, u: Tid)
    requires WellFormed(s) && t < |s.pc| && u < |s.pc| && u != t && IsClose(s.pc[t]) && !s.pc[t].CleanNext? && !Holds(s.pc[t])
    ensures Spares(s, CloseStep(s, t, s.pc[t]), u)
  {
  }

  lemma CleanSpares(s: State, t: Tid, u: Tid)
    requires WellFormed(s) && t < |s.pc| && u < |s.pc| && u != t && IsClose(s.pc[t]) && !s.pc[t].CleanNext?
    requires s.pc[t].CleanStatus? || s.pc[t].CleanPortPtr? || s.pc[t].CleanFlag? || s.pc[t].CleanReady? ==> u != s.pc[t].o
    ensures Spares(s, CloseStep(s, t, s.pc[t]), u)
  {
    if Holds(s.pc[t]) { CleanHeldSpares(s, t, u); } else { CloseEndSpares(s, t, u); }
  }

  lemma GateSpares(s: State, t: Tid, u: Tid)
    requires WellFormed(s) && t < |s.pc| && u < |s.pc| && u != t && IsGate(s.pc[t])
    ensures Spares(s, GateStep(s, t, s.pc[t]), u)
  {
  }

  lemma SetBlockedSpares(s: State, t: Tid, ok: bool, u: Tid)
    requires WellFormed(s) && t < |s.pc| && u < |s.pc| && u != t && s.pc[t].SetBlocked?
    ensures Spares(s, BlockStep(s, t, s.pc[t], ok), u)
  {
  }

  lemma ReadTailSpares(s: State, t: Tid, ok: bool, u: Tid)
    requires WellFormed(s) && t < |s.pc| && u < |s.pc| && u != t && s.pc[t].ReadTail?
    ensures Spares(s, BlockStep(s, t, s.pc[t], ok), u)
  {
  }

  lemma SetPortPtrSpares(s: State, t: Tid, ok: bool, u: Tid)
    requires WellFormed(s) && t < |s.pc| && u < |s.pc| && u != t && s.pc[t].SetPortPtr?
    ensures Spares(s, BlockStep(s, t, s.pc[t], ok), u)
  {
  }

  lemma EnqueueSpares(s: State, t: Tid, ok: bool, u: Tid)
    requires WellFormed(s) && t < |s.pc| && u < |s.pc| && u != t && s.pc[t].Enqueue?
    ensures Spares(s, BlockStep(s, t, s.pc[t], ok), u)
  {
  }

  lemma UnblockSpares(s: State, t: Tid, ok: bool, u: Tid)
    requires WellFormed(s) && t < |s.pc| && u < |s.pc| && u != t && s.pc[t].Unblock?
    ensures Spares(s, BlockStep(s, t, s.pc[t], ok), u)
  {
  }

  lemma BlockSpares(s: State, t: Tid, ok: bool, u: Tid)
    requires WellFormed(s) && t < |s.pc| && u < |s.pc| && u != t && IsBlock(s.pc[t])
    ensures Spares(s, BlockStep(s, t, s.pc[t], ok), u)
  {
    match s.pc[t]
    case SetBlocked(_, _) => SetBlockedSpares(s, t, ok, u);
    case ReadTail(_, _, _) => ReadTailSpares(s, t, ok, u);
    case SetPortPtr(_, _, _, _) => SetPortPtrSpares(s, t, ok, u);
    case Enqueue(_, _, _, _) => EnqueueSpares(s, t, ok, u);
    case Unblock(_, _, _, _) => UnblockSpares(s, t, ok, u);
  }

  lemma OrphanSpares(s: State, t: Tid, u: Tid)
    requires WellFormed(s) && t < |s.pc| && u < |s.pc| && u != t && IsOrphan(s.pc[t])
    ensures Spares(s, OrphanStep(s, t, s.pc[t]), u)
  {
  }

  lemma CallSpares(s: State, t: Tid, a: Action, u: Tid)
    requires WellFormed(s) && Enabled(s, t, a) && u < |s.pc| && u != t && !a.Advance?
    ensures Spares(s, Apply(s, t, a), u)
  {
  }

  lemma PlainSpares(s: State, t: Tid, a: Action, u: Tid)
    requires WellFormed(s) && Enabled(s, t, a) && u < |s.pc| && u != t
    requires a.Advance? ==> IsGate(s.pc[t]) || IsBlock(s.pc[t]) || IsOrphan(s.pc[t])
    ensures Spares(s, Apply(s, t, a), u)
  {
    if !a.Advance? {
      CallSpares(s, t, a, u);
    } else if IsGate(s.pc[t]) {
      GateSpares(s, t, u);
    } else if IsBlock(s.pc[t]) {
      BlockSpares(s, t, a.ok, u);
    } else {
      OrphanSpares(s, t, u);
    }
  }

  /** Thread t's next step concerns u: t holds u's request, or is about to take it from the head of a queue. */
  ghost predicate Concerns(s: State, t: Tid, u: Tid)
    requires t < |s.pc|
  {
    var pc := s.pc[t];
    || (Holds(pc) && pc.o == u)
    || ((pc.TryMatch? || pc.CleanNext?) && pc.p < |s.ports| && s.ports[pc.p].queue != [] && s.ports[pc.p].queue[0].thread == u)
  }

  lemma StepSpares(s: State, t: Tid, a: Action, u: Tid)
    requires GateInv(s) && WellFormed(s) && Enabled(s, t, a) && u < |s.pc| && u != t && (a.Advance? ==> !Concerns(s, t, u))
    ensures Spares(s, Apply(s, t, a), u)
  {
    if a.Advance? {
      var pc := s.pc[t];
      assert InRange(pc, |s.ports|);
      if IsMatch(pc) {
        MatchSpares(s, t, a.ok, u);
      } else if IsTake(pc) {
        TakeEffect(s, t, a.ok, u);
      } else if IsGive(pc) {
        GiveEffect(s, t, a.ok, u);
      } else if IsClose(pc) {
        if pc.CleanNext? { CleanNextSpares(s, t, u); } else { CleanSpares(s, t, u); }
      } else {
        PlainSpares(s, t, a, u);
      }
    } else {
      PlainSpares(s, t, a, u);
    }
  }

  /** A thread concerned by another's step is queued, or held by it. */
  lemma ConcernedWaits(s: State, t: Tid, u: Tid)
    requires WaitInv(s) && t < |s.pc| && Concerns(s, t, u)
    ensures u < |s.pc| && (s.wait[u].Queued? || (s.wait[u].Held? && s.wait[u].owner == t && Holds(s.pc[t]) && s.pc[t].o == u))
    ensures s.wait[u].Queued? ==> s.wait[u].port == s.pc[t].p && (s.pc[t].TryMatch? || s.pc[t].CleanNext?)
  {
    var pc := s.pc[t];
    assert HolderOk(s, t);
    if !Holds(pc) {
      assert QueueOk(s, pc.p);
    }
  }

  /** What a waiting thread's own steps do. */
  lemma OwnWaiting(s: State, t: Tid, a: Action)
    requires WellFormed(s) && Enabled(s, t, a) && IsWaiting(s.pc[t])
    ensures var s' := Apply(s, t, a);
            && WellFormed(s') && |s'.pc| == |s.pc| && s'.wait == s.wait && s'.abandoned == s.abandoned
            && (Waiting(s'.pc[t], s.pc[t].d, s.pc[t].p) || (s'.pc[t].Woken? && s.status[t] == Ready))
            && (s.status[t] == Blocked(s.pc[t].d) || s.status[t] == Exit ==> s'.status[t] == s.status[t] || s'.status[t] == Exit)
            && (s'.status[t].Blocked? ==> s'.status[t] == s.status[t])
  {
  }

  // ---------------------------------------------------------------------------------------------
  // Abandoned threads
  // ---------------------------------------------------------------------------------------------

  /** Nobody answers for the thread any more, and it will not be woken. */
  ghost predicate Forsaken(s: State, t: Tid)
  {
    && WellFormed(s) && t < |s.pc| && s.wait[t].NoWait? && IsWaiting(s.pc[t])
    && (s.status[t] == Blocked(s.pc[t].d) || s.status[t] == Exit)
  }

  ghost predicate AbandonInv(s: State) { forall t :: t in s.abandoned ==> Forsaken(s, t) }

  lemma ForsakenKept(s: State, t: Tid, a: Action, u: Tid)
    requires GateInv(s) && WaitInv(s) && Enabled(s, t, a) && Forsaken(s, u)
    ensures Forsaken(Apply(s, t, a), u)
  {
    if u == t {
      OwnWaiting(s, t, a);
    } else {
      if a.Advance? && Concerns(s, t, u) {
        ConcernedWaits(s, t, u);
      }
      StepSpares(s, t, a, u);
    }
  }

  /** Only a thread whose request is held gets abandoned. */
  lemma AbandonedHeld(s: State, t: Tid, a: Action, u: Tid)
    requires GateInv(s) && WaitInv(s) && Enabled(s, t, a) && u !in s.abandoned && u in Apply(s, t, a).abandoned
    ensures u < |s.pc| && u != t && a.Advance? && (IsTake(s.pc[t]) || IsGive(s.pc[t])) && s.pc[t].o == u && Drops(s, Apply(s, t, a), u)
  {
    OnlyTransfers(s, t, a);
    assert HolderOk(s, t) && WaiterOk(s, s.pc[t].o);
    if IsTake(s.pc[t]) {
      TakeEffect(s, t, a.ok, u);
    } else {
      GiveEffect(s, t, a.ok, u);
    }
  }

  lemma OnlyTransfers(s: State, t: Tid, a: Action)
    requires Enabled(s, t, a)
    ensures if a.Advance? && (IsTake(s.pc[t]) || IsGive(s.pc[t])) then Apply(s, t, a).abandoned <= s.abandoned + {s.pc[t].o}
            else Apply(s, t, a).abandoned == s.abandoned
  {
    if a.Advance? {
      var pc := s.pc[t];
      if IsMatch(pc) {
        MatchAbandons(s, t, a.ok);
      } else if IsTake(pc) {
        TakeAbandons(s, t, a.ok);
      } else if IsGive(pc) {
        GiveAbandons(s, t, a.ok);
      } else if IsClose(pc) {
        CloseAbandons(s, t);
      } else {
        RestAbandons(s, t, a.ok);
      }
    }
  }

  lemma TakeAbandons(s: State, t: Tid, ok: bool)
    requires t < |s.pc| && IsTake(s.pc[t])
    ensures TakeStep(s, t, s.pc[t], ok).abandoned <= s.abandoned + {s.pc[t].o}
  {
  }

  lemma GiveAbandons(s: State, t: Tid, ok: bool)
    requires t < |s.pc| && IsGive(s.pc[t])
    ensures GiveStep(s, t, s.pc[t], ok).abandoned <= s.abandoned + {s.pc[t].o}
  {
  }

  lemma RestAbandons(s: State, t: Tid, ok: bool)
    requires t < |s.pc| && !s.pc[t].Idle? && !s.pc[t].Asleep?
    ensures IsGate(s.pc[t]) ==> GateStep(s, t, s.pc[t]).abandoned == s.abandoned
    ensures IsBlock(s.pc[t]) ==> BlockStep(s, t, s.pc[t], ok).abandoned == s.abandoned
    ensures IsOrphan(s.pc[t]) ==> OrphanStep(s, t, s.pc[t]).abandoned == s.abandoned
  {
  }

  lemma MatchAbandons(s: State, t: Tid, ok: bool)
    requires t < |s.pc| && IsMatch(s.pc[t])
    ensures MatchStep(s, t, s.pc[t], ok).abandoned == s.abandoned
  {
  }

  lemma CloseAbandons(s: State, t: Tid)
    requires t < |s.pc| && IsClose(s.pc[t])
    ensures CloseStep(s, t, s.pc[t]).abandoned == s.abandoned
  {
  }

  lemma AbandonApply(s: State, t: Tid, a: Action)
    requires GateInv(s) && WaitInv(s) && AbandonInv(s) && Enabled(s, t, a)
    ensures AbandonInv(Apply(s, t, a))
  {
    forall u | u in Apply(s, t, a).abandoned
      ensures Forsaken(Apply(s, t, a), u)
    {
      if u in s.abandoned {
        ForsakenKept(s, t, a, u);
      } else {
        AbandonedHeld(s, t, a, u);
        assert HolderOk(s, t) && WaiterOk(s, u);
      }
    }
  }

  ghost predicate OpenSound(k: Key) { true }

  /** The invariants of one state (folded). */
  ghost predicate Sound(s: State)
  {
    forall k: Key {:trigger OpenSound(k)} :: OpenSound(k) ==> GateInv(s) && WaitInv(s) && AbandonInv(s)
  }

  lemma FoldSound(s: State)
    requires GateInv(s) && WaitInv(s) && AbandonInv(s)
    ensures Sound(s)
  {
  }

  lemma SoundStep(run: seq<State>, choices: Schedule, i: nat)
    requires IsRun(run, choices) && 0 < i < |run| && Sound(run[i - 1])
    ensures Sound(run[i])
  {
    var s, t, a := run[i - 1], choices[i - 1].0, choices[i - 1].1;
    assert Enabled(s, t, a) && run[i] == Apply(s, t, a);
    SoundApply(s, t, a);
  }

  lemma SoundApply(s: State, t: Tid, a: Action)
    requires Sound(s) && Enabled(s, t, a)
    ensures Sound(Apply(s, t, a))
  {
    assert OpenSound(Key);
    GateApply(s, t, a);
    WaitApply(s, t, a);
    AbandonApply(s, t, a);
    FoldSound(Apply(s, t, a));
  }

  lemma {:induction false} RunSound(run: seq<State>, choices: Schedule, i: nat)
    requires IsRun(run, choices) && i < |run|
    ensures Sound(run[i])
  {
    if i == 0 {
      InitInv(run[0]);
      FoldSound(run[0]);
    } else {
      RunSound(run, choices, i - 1);
      SoundStep(run, choices, i);
    }
  }

  /** In every run an abandoned thread waits, blocked or exiting, with nobody answering for it. */
  lemma AbandonedStayBlocked(run: seq<State>, choices: Schedule, i: nat, t: Tid)
    requires IsRun(run, choices) && i < |run| && t in run[i].abandoned
    ensures Forsaken(run[i], t)
  {
    RunSound(run, choices, i);
    assert OpenSound(Key);
  }

  // ---------------------------------------------------------------------------------------------
  // From the drain to the end of the clean
  // ---------------------------------------------------------------------------------------------

  predicate WaitsOn(pc: Pc, p: Pid) { IsWaiting(pc) && pc.p == p }

  /** Thread u, if it waits on p, is queued there, in the hands of the closing thread, or let go by it. */
  ghost predicate InGoodHands(s: State, u: Tid, p: Pid)
  {
    WellFormed(s) && u < |s.pc| &&
    (WaitsOn(s.pc[u], p) ==>
       (s.status[u].Blocked? ==> s.status[u].dir == s.pc[u].d) &&
       match s.wait[u]
       case NoWait => u !in s.abandoned
       case Queued(q, d) => q == p
       case Held(a, q, d) => q == p && a < |s.pc| && IsClose(s.pc[a]))
  }

  lemma NoNewWaitGate(s: State, u: Tid, p: Pid)
    requires u < |s.pc| && IsGate(s.pc[u]) && !Inside(s.pc[u], p)
    ensures var s' := GateStep(s, u, s.pc[u]); u < |s'.pc| && !WaitsOn(s'.pc[u], p)
  {
  }

  lemma NoNewWaitMatch(s: State, u: Tid, ok: bool, p: Pid)
    requires u < |s.pc| && IsMatch(s.pc[u])
    ensures var s' := MatchStep(s, u, s.pc[u], ok); u < |s'.pc| && !WaitsOn(s'.pc[u], p)
  {
  }

  lemma NoNewWaitTake(s: State, u: Tid, ok: bool, p: Pid)
    requires u < |s.pc| && IsTake(s.pc[u])
    ensures var s' := TakeStep(s, u, s.pc[u], ok); u < |s'.pc| && !WaitsOn(s'.pc[u], p)
  {
  }

  lemma NoNewWaitGive(s: State, u: Tid, ok: bool, p: Pid)
    requires u < |s.pc| && IsGive(s.pc[u])
    ensures var s' := GiveStep(s, u, s.pc[u], ok); u < |s'.pc| && !WaitsOn(s'.pc[u], p)
  {
  }

  lemma NoNewWaitBlock(s: State, u: Tid, ok: bool, p: Pid)
    requires u < |s.pc| && IsBlock(s.pc[u]) && !Inside(s.pc[u], p)
    ensures var s' := BlockStep(s, u, s.pc[u], ok); u < |s'.pc| && !WaitsOn(s'.pc[u], p)
  {
  }

  lemma NoNewWaitRest(s: State, u: Tid, p: Pid)
    requires u < |s.pc| && (IsOrphan(s.pc[u]) || IsClose(s.pc[u]))
    ensures var s' := if IsOrphan(s.pc[u]) then OrphanStep(s, u, s.pc[u]) else CloseStep(s, u, s.pc[u]); u < |s'.pc| && !WaitsOn(s'.pc[u], p)
  {
  }

  /** A thread that does not wait on a drained port does not come to wait on it. */
  lemma NoNewWait(s: State, u: Tid, a: Action, p: Pid)
    requires Enabled(s, u, a) && !Inside(s.pc[u], p) && !WaitsOn(s.pc[u], p)
    ensures u < |Apply(s, u, a).pc| && !WaitsOn(Apply(s, u, a).pc[u], p)
  {
    if a.Advance? {
      var pc := s.pc[u];
      if IsGate(pc) { NoNewWaitGate(s, u, p); }
      else if IsMatch(pc) { NoNewWaitMatch(s, u, a.ok, p); }
      else if IsTake(pc) { NoNewWaitTake(s, u, a.ok, p); }
      else if IsGive(pc) { NoNewWaitGive(s, u, a.ok, p); }
      else if IsBlock(pc) { NoNewWaitBlock(s, u, a.ok, p); }
      else { NoNewWaitRest(s, u, p); }
    }
  }

  lemma OwnGoodHands(s: State, u: Tid, a: Action, p: Pid)
    requires WaitInv(s) && Enabled(s, u, a) && WaitInv(Apply(s, u, a)) && InGoodHands(s, u, p) && !Inside(s.pc[u], p)
    ensures InGoodHands(Apply(s, u, a), u, p)
  {
    if WaitsOn(s.pc[u], p) {
      OwnWaiting(s, u, a);
      assert WaiterOk(s, u);
      if s.wait[u].Held? {
        HolderGoesOn(s, u, a);
      }
    } else {
      NoNewWait(s, u, a, p);
    }
  }

  /** A waiting thread's step is not its holder's. */
  lemma HolderGoesOn(s: State, u: Tid, a: Action)
    requires WaitInv(s) && Enabled(s, u, a) && s.wait[u].Held? && IsWaiting(s.pc[u])
    ensures var b := s.wait[u].owner; b < |s.pc| && b < |Apply(s, u, a).pc| && Apply(s, u, a).pc[b] == s.pc[b]
  {
    assert WaiterOk(s, u);
  }

  /** The closing thread takes a request. */
  lemma TakenInGoodHands(s: State, t: Tid, u: Tid)
    requires WellFormed(s) && t < |s.pc| && u < |s.pc| && u != t && s.pc[t].CleanNext? && InGoodHands(s, u, s.pc[t].p) && Concerns(s, t, u)
    ensures InGoodHands(CloseStep(s, t, s.pc[t]), u, s.pc[t].p)
  {
  }

  /** The closing thread goes on with a request, or lets it go. */
  lemma CleanStatusGoodHands(s: State, t: Tid, u: Tid)
    requires WellFormed(s) && t < |s.pc| && u < |s.pc| && u != t && IsClose(s.pc[t]) && s.pc[t].CleanStatus? && Holds(s.pc[t]) && s.pc[t].o == u
    requires InGoodHands(s, u, s.pc[t].p) && u !in s.abandoned && IsWaiting(s.pc[u]) && s.pc[u].p == s.pc[t].p
    ensures InGoodHands(CloseStep(s, t, s.pc[t]), u, s.pc[t].p)
  {
  }

  lemma CleanPortPtrGoodHands(s: State, t: Tid, u: Tid)
    requires WellFormed(s) && t < |s.pc| && u < |s.pc| && u != t && s.pc[t].CleanPortPtr? && Holds(s.pc[t]) && s.pc[t].o == u
    requires InGoodHands(s, u, s.pc[t].p) && u !in s.abandoned && IsWaiting(s.pc[u]) && s.pc[u].p == s.pc[t].p
    ensures InGoodHands(CloseStep(s, t, s.pc[t]), u, s.pc[t].p)
  {
  }

  lemma CleanFlagGoodHands(s: State, t: Tid, u: Tid)
    requires WellFormed(s) && t < |s.pc| && u < |s.pc| && u != t && s.pc[t].CleanFlag? && Holds(s.pc[t]) && s.pc[t].o == u
    requires InGoodHands(s, u, s.pc[t].p) && u !in s.abandoned && IsWaiting(s.pc[u]) && s.pc[u].p == s.pc[t].p
    ensures InGoodHands(CloseStep(s, t, s.pc[t]), u, s.pc[t].p)
  {
  }

  lemma CleanReadyGoodHands(s: State, t: Tid, u: Tid)
    requires WellFormed(s) && t < |s.pc| && u < |s.pc| && u != t && s.pc[t].CleanReady? && Holds(s.pc[t]) && s.pc[t].o == u
    requires InGoodHands(s, u, s.pc[t].p) && u !in s.abandoned && IsWaiting(s.pc[u]) && s.pc[u].p == s.pc[t].p
    ensures InGoodHands(CloseStep(s, t, s.pc[t]), u, s.pc[t].p)
  {
  }

  lemma CleanedGoodHands(s: State, t: Tid, u: Tid)
    requires WellFormed(s) && t < |s.pc| && u < |s.pc| && u != t && IsClose(s.pc[t]) && !s.pc[t].CleanStatus? && Holds(s.pc[t]) && s.pc[t].o == u
    requires InGoodHands(s, u, s.pc[t].p) && u !in s.abandoned && IsWaiting(s.pc[u]) && s.pc[u].p == s.pc[t].p
    ensures InGoodHands(CloseStep(s, t, s.pc[t]), u, s.pc[t].p)
  {
    match s.pc[t]
    case CleanPortPtr(_, _, _) => CleanPortPtrGoodHands(s, t, u);
    case CleanFlag(_, _) => CleanFlagGoodHands(s, t, u);
    case CleanReady(_, _, _) => CleanReadyGoodHands(s, t, u);
  }

  lemma HeldInGoodHands(s: State, t: Tid, u: Tid)
    requires WellFormed(s) && t < |s.pc| && u < |s.pc| && u != t && IsClose(s.pc[t]) && Holds(s.pc[t]) && s.pc[t].o == u
    requires InGoodHands(s, u, s.pc[t].p) && u !in s.abandoned && IsWaiting(s.pc[u]) && s.pc[u].p == s.pc[t].p
    ensures InGoodHands(CloseStep(s, t, s.pc[t]), u, s.pc[t].p)
  {
    if s.pc[t].CleanStatus? { CleanStatusGoodHands(s, t, u); } else { CleanedGoodHands(s, t, u); }
  }

  /** No step moves another thread, and the state keeps its form. */
  lemma PcKept(s: State, t: Tid, a: Action, u: Tid)
    requires GateInv(s) && WaitInv(s) && Enabled(s, t, a) && u < |s.pc| && u != t
    ensures WellFormed(Apply(s, t, a)) && |Apply(s, t, a).pc| == |s.pc| && Apply(s, t, a).pc[u] == s.pc[u]
  {
    if a.Advance? {
      var pc := s.pc[t];
      if IsTake(pc) {
        TakeEffect(s, t, a.ok, u);
      } else if IsGive(pc) {
        GiveEffect(s, t, a.ok, u);
      } else if IsMatch(pc) {
        MatchPcs(s, t, a.ok, u);
      } else if IsClose(pc) {
        ClosePcs(s, t, u);
      } else {
        PlainSpares(s, t, a, u);
      }
    } else {
      PlainSpares(s, t, a, u);
    }
  }

  lemma TryMatchPcs(s: State, t: Tid, ok: bool, u: Tid)
    requires WellFormed(s) && t < |s.pc| && u < |s.pc| && u != t && s.pc[t].TryMatch?
    ensures var s' := MatchStep(s, t, s.pc[t], ok); WellFormed(s') && |s'.pc| == |s.pc| && s'.pc[u] == s.pc[u]
  {
  }

  lemma CheckStatusPcs(s: State, t: Tid, ok: bool, u: Tid)
    requires WellFormed(s) && t < |s.pc| && u < |s.pc| && u != t && s.pc[t].CheckStatus?
    ensures var s' := MatchStep(s, t, s.pc[t], ok); WellFormed(s') && |s'.pc| == |s.pc| && s'.pc[u] == s.pc[u]
  {
  }

  lemma ClearStalePcs(s: State, t: Tid, ok: bool, u: Tid)
    requires WellFormed(s) && t < |s.pc| && u < |s.pc| && u != t && s.pc[t].ClearStale?
    ensures var s' := MatchStep(s, t, s.pc[t], ok); WellFormed(s') && |s'.pc| == |s.pc| && s'.pc[u] == s.pc[u]
  {
  }

  lemma ClaimPcs(s: State, t: Tid, ok: bool, u: Tid)
    requires WellFormed(s) && t < |s.pc| && u < |s.pc| && u != t && s.pc[t].Claim?
    ensures var s' := MatchStep(s, t, s.pc[t], ok); WellFormed(s') && |s'.pc| == |s.pc| && s'.pc[u] == s.pc[u]
  {
  }

  lemma MatchPcs(s: State, t: Tid, ok: bool, u: Tid)
    requires WellFormed(s) && t < |s.pc| && u < |s.pc| && u != t && IsMatch(s.pc[t])
    ensures var s' := MatchStep(s, t, s.pc[t], ok); WellFormed(s') && |s'.pc| == |s.pc| && s'.pc[u] == s.pc[u]
  {
    match s.pc[t]
    case TryMatch(_, _) => TryMatchPcs(s, t, ok, u);
    case CheckStatus(_, _, _) => CheckStatusPcs(s, t, ok, u);
    case ClearStale(_, _, _) => ClearStalePcs(s, t, ok, u);
    case Claim(_, _, _) => ClaimPcs(s, t, ok, u);
  }

  lemma WaitDrainedPcs(s: State, t: Tid, u: Tid)
    requires WellFormed(s) && t < |s.pc| && u < |s.pc| && u != t && s.pc[t].WaitDrained?
    ensures var s' := CloseStep(s, t, s.pc[t]); WellFormed(s') && |s'.pc| == |s.pc| && s'.pc[u] == s.pc[u]
  {
  }

  lemma CleanNextPcs(s: State, t: Tid, u: Tid)
    requires WellFormed(s) && t < |s.pc| && u < |s.pc| && u != t && s.pc[t].CleanNext?
    ensures var s' := CloseStep(s, t, s.pc[t]); WellFormed(s') && |s'.pc| == |s.pc| && s'.pc[u] == s.pc[u]
  {
  }

  lemma CleanStatusPcs(s: State, t: Tid, u: Tid)
    requires WellFormed(s) && t < |s.pc| && u < |s.pc| && u != t && s.pc[t].CleanStatus?
    ensures var s' := CloseStep(s, t, s.pc[t]); WellFormed(s') && |s'.pc| == |s.pc| && s'.pc[u] == s.pc[u]
  {
  }

  lemma CleanPortPtrPcs(s: State, t: Tid, u: Tid)
    requires WellFormed(s) && t < |s.pc| && u < |s.pc| && u != t && s.pc[t].CleanPortPtr?
    ensures var s' := CloseStep(s, t, s.pc[t]); WellFormed(s') && |s'.pc| == |s.pc| && s'.pc[u] == s.pc[u]
  {
  }

  lemma CleanFlagPcs(s: State, t: Tid, u: Tid)
    requires WellFormed(s) && t < |s.pc| && u < |s.pc| && u != t && s.pc[t].CleanFlag?
    ensures var s' := CloseStep(s, t, s.pc[t]); WellFormed(s') && |s'.pc| == |s.pc| && s'.pc[u] == s.pc[u]
  {
  }

  lemma CleanReadyPcs(s: State, t: Tid, u: Tid)
    requires WellFormed(s) && t < |s.pc| && u < |s.pc| && u != t && s.pc[t].CleanReady?
    ensures var s' := CloseStep(s, t, s.pc[t]); WellFormed(s') && |s'.pc| == |s.pc| && s'.pc[u] == s.pc[u]
  {
  }

  lemma CleanDonePcs(s: State, t: Tid, u: Tid)
    requires WellFormed(s) && t < |s.pc| && u < |s.pc| && u != t && s.pc[t].CleanDone?
    ensures var s' := CloseStep(s, t, s.pc[t]); WellFormed(s') && |s'.pc| == |s.pc| && s'.pc[u] == s.pc[u]
  {
  }

  lemma ClosePcs(s: State, t: Tid, u: Tid)
    requires WellFormed(s) && t < |s.pc| && u < |s.pc| && u != t && IsClose(s.pc[t])
    ensures var s' := CloseStep(s, t, s.pc[t]); WellFormed(s') && |s'.pc| == |s.pc| && s'.pc[u] == s.pc[u]
  {
    match s.pc[t]
    case WaitDrained(_) => WaitDrainedPcs(s, t, u);
    case CleanNext(_) => CleanNextPcs(s, t, u);
    case CleanStatus(_, _) => CleanStatusPcs(s, t, u);
    case CleanPortPtr(_, _, _) => CleanPortPtrPcs(s, t, u);
    case CleanFlag(_, _) => CleanFlagPcs(s, t, u);
    case CleanReady(_, _, _) => CleanReadyPcs(s, t, u);
    case CleanDone(_) => CleanDonePcs(s, t, u);
  }

  /** Whoever holds u goes on holding it, in the same role, unless it is the one that steps. */
  lemma HolderStays(s: State, t: Tid, a: Action, u: Tid)
    requires GateInv(s) && WaitInv(s) && Enabled(s, t, a) && u < |s.pc| && u != t && (a.Advance? ==> !Concerns(s, t, u)) && s.wait[u].Held?
    ensures var b := s.wait[u].owner; b < |s.pc| && b < |Apply(s, t, a).pc| && (IsClose(s.pc[b]) ==> IsClose(Apply(s, t, a).pc[b]))
  {
    var b := s.wait[u].owner;
    assert WaiterOk(s, u);
    if b != t {
      PcKept(s, t, a, b);
    } else {
      assert Holds(s.pc[t]) && s.pc[t].o == u && !a.Advance?;
      CallPc(s, t, a);
    }
  }

  /** A thread in the middle of a call is moved by nothing but its own steps. */
  lemma CallPc(s: State, t: Tid, a: Action)
    requires WellFormed(s) && Enabled(s, t, a) && !a.Advance? && Holds(s.pc[t])
    ensures Apply(s, t, a).pc == s.pc
  {
  }

  /** Other threads: nobody works on a drained port, so only its closing thread takes requests from it. */
  lemma OtherGoodHands(s: State, t: Tid, a: Action, u: Tid, p: Pid)
    requires GateInv(s) && WaitInv(s) && AbandonInv(s) && Enabled(s, t, a) && u != t && InGoodHands(s, u, p) && !Inside(s.pc[t], p)
    ensures InGoodHands(Apply(s, t, a), u, p)
  {
    if a.Advance? && Concerns(s, t, u) && WaitsOn(s.pc[u], p) {
      ConcernedWaits(s, t, u);
      assert WaiterOk(s, u) && HolderOk(s, t);
      if s.pc[t].CleanNext? { TakenInGoodHands(s, t, u); } else { HeldInGoodHands(s, t, u); }
    } else if a.Advance? && Concerns(s, t, u) {
      PcKept(s, t, a, u);
    } else {
      StepSpares(s, t, a, u);
      if s.wait[u].Held? {
        HolderStays(s, t, a, u);
      }
    }
  }

  lemma {:induction false} StaysInGoodHands(run: seq<State>, choices: Schedule, i: nat, j: nat, p: Pid, t: Tid)
    requires IsRun(run, choices) && i <= j < |run| && p < |run[i].ports| && run[i].ports[p].drained && InGoodHands(run[i], t, p)
    ensures InGoodHands(run[j], t, p)
    decreases j
  {
    if i < j {
      StaysInGoodHands(run, choices, i, j - 1, p, t);
      NextInGoodHands(run, choices, i, j, p, t);
    }
  }

  lemma QueuedInGoodHands(s: State, p: Pid, t: Tid, d: Dir)
    requires Sound(s) && p < |s.ports| && Request(t, d) in s.ports[p].queue
    ensures InGoodHands(s, t, p)
  {
    assert OpenSound(Key);
    assert QueueOk(s, p);
    var i :| 0 <= i < |s.ports[p].queue| && s.ports[p].queue[i] == Request(t, d);
    assert WaiterOk(s, t);
  }

  lemma NextInGoodHands(run: seq<State>, choices: Schedule, i: nat, j: nat, p: Pid, t: Tid)
    requires IsRun(run, choices) && i < j < |run| && p < |run[i].ports| && run[i].ports[p].drained && InGoodHands(run[j - 1], t, p)
    ensures InGoodHands(run[j], t, p)
  {
    var s, e := run[j - 1], choices[j - 1];
    assert Enabled(s, e.0, e.1) && run[j] == Apply(s, e.0, e.1);
    DrainedPortStaysQuiet(run, choices, i, j - 1, p);
    RunSound(run, choices, j - 1);
    RunSound(run, choices, j);
    GoodHandsStep(s, e.0, e.1, t, p);
  }

  lemma GoodHandsStep(s: State, t: Tid, a: Action, u: Tid, p: Pid)
    requires Sound(s) && Enabled(s, t, a) && Sound(Apply(s, t, a)) && InGoodHands(s, u, p) && !Inside(s.pc[t], p)
    ensures InGoodHands(Apply(s, t, a), u, p)
  {
    assert OpenSound(Key);
    if t == u {
      OwnGoodHands(s, u, a, p);
    } else {
      OtherGoodHands(s, t, a, u, p);
    }
  }

  /**
   A thread whose request is in the queue when the closing thread has seen the operation count at zero is not left
   blocked: once the port is closed, it is no longer blocked in that wait.
   */
  lemma CloseWakesQueued(run: seq<State>, choices: Schedule, i: nat, j: nat, p: Pid, t: Tid, d: Dir)
    requires IsRun(run, choices) && i <= j < |run| && p < |run[i].ports| && p < |run[j].ports| && run[i].ports[p].drained
    requires Request(t, d) in run[i].ports[p].queue && run[j].ports[p].life == Closed
    requires t < |run[j].pc| && IsWaiting(run[j].pc[t]) && run[j].pc[t].p == p
    ensures t < |run[j].status| && !run[j].status[t].Blocked?
  {
    RunSound(run, choices, i);
    QueuedInGoodHands(run[i], p, t, d);
    StaysInGoodHands(run, choices, i, j, p, t);
    RunSound(run, choices, j);
    GoodHandsClosed(run[j], t, p);
  }

  lemma GoodHandsClosed(s: State, t: Tid, p: Pid)
    requires Sound(s) && p < |s.ports| && s.ports[p].life == Closed && InGoodHands(s, t, p) && WaitsOn(s.pc[t], p)
    ensures !s.status[t].Blocked?
  {
    assert OpenSound(Key);
    assert WaiterOk(s, t) && GateOk(s, p);
    assert s.wait[t].Held? ==> CloserOk(s, s.wait[t].owner);
  }

  /** A thread comes back from sleep with the closed flag that was set for it. */
  lemma {:induction false} FlagSeenOnWaking(run: seq<State>, choices: Schedule, i: nat, j: nat, o: Tid)
    requires IsRun(run, choices) && i <= j < |run| && o < |run[i].closedFlag| && run[i].closedFlag[o]
    requires forall m :: i <= m < j ==> o < |run[m].pc| && !run[m].pc[o].Woken?
    ensures o < |run[j].closedFlag| && run[j].closedFlag[o]
    decreases j
  {
    if i < j {
      FlagSeenOnWaking(run, choices, i, j - 1, o);
      FlagStays(run, choices, j - 1, o);
    }
  }
}

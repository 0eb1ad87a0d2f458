/**
 Ports and rendezvous IPC as an interleaved step system.

 Any number of threads run send, receive, close and exit on any number of ports; one step is one
 access to shared memory. The lock-free queues are atomic FIFOs whose checked enqueue and dequeue
 compare the kind of the queued waiters.
 */
module Rendezvous {

  datatype Option<+T> = None | Some(value: T)

  datatype Dir = Send | Recv

  function Opposite(d: Dir): Dir { if d.Send? then Recv else Send }

  type Msg = nat
  type Tid = nat
  type Pid = nat

  /** A waiter in a port's thread queue. */
  datatype Request = Request(thread: Tid, dir: Dir)

  datatype Life = Active | Registered | Closing | Closed

  /** `drained` records that the closing thread has seen the operation count at zero. */
  datatype Port = Port(life: Life, count: int, queue: seq<Request>, closer: Option<Tid>, drained: bool)

  datatype Status = Running | Ready | Blocked(dir: Dir) | Exit

  /** What became of a message that left its sender for good. */
  datatype Fate = Accepted(receiver: Tid) | Dropped

  /**
   A thread's send side: the pending slot and the send queue. History variables: all messages it
   ever queued, those it lost with their fate, and the one an ongoing transfer has in hand.
   */
  datatype Box = Box(pending: Option<Msg>, queue: seq<Msg>, sent: seq<Msg>, done: seq<(Msg, Fate)>, flight: Option<(Msg, Tid)>)

  /** Who answers for a thread's wait request: nobody, a port's queue, or the thread that took it. */
  datatype Wait = NoWait | Queued(port: Pid, dir: Dir) | Held(owner: Tid, port: Pid, dir: Dir)

  /** The next step of a thread, named after the step. */
  datatype Pc =
    | Idle
    // port_ops_begin and port_ops_end
    | CountUp(d: Dir, p: Pid)
    | Recheck(d: Dir, p: Pid)
    | CountUndo(d: Dir, p: Pid)
    | CountDown(p: Pid)
    // ipc_port_try_match
    | TryMatch(d: Dir, p: Pid)
    | CheckStatus(d: Dir, p: Pid, o: Tid)
    | ClearStale(d: Dir, p: Pid, o: Tid)
    | Claim(d: Dir, p: Pid, o: Tid)
    // ipc_transfer_message
    | CheckReceiver(d: Dir, p: Pid, o: Tid)
    | TakePending(d: Dir, p: Pid, o: Tid)
    | TakeQueued(d: Dir, p: Pid, o: Tid)
    | CheckSender(d: Dir, p: Pid, o: Tid, m: Msg)
    | Deliver(d: Dir, p: Pid, o: Tid, m: Msg)
    | RecheckReceiver(d: Dir, p: Pid, o: Tid, m: Msg)
    | PutBack(d: Dir, p: Pid, o: Tid, m: Msg)
    | Wake(d: Dir, p: Pid, o: Tid)
    // ipc_port_enqueue_wait
    | SetBlocked(d: Dir, p: Pid)
    | ReadTail(d: Dir, p: Pid, was: Status)
    | SetPortPtr(d: Dir, p: Pid, was: Status, tail: Option<Dir>)
    | Enqueue(d: Dir, p: Pid, was: Status, tail: Option<Dir>)
    | Unblock(d: Dir, p: Pid, was: Status, retry: bool)
    | CountDownBlocked(d: Dir, p: Pid)
    | Asleep(d: Dir, p: Pid)
    | Woken(d: Dir, p: Pid)
    // ipc_drop_one_orphan_send_msg
    | OrphanPending
    | OrphanQueued
    // unregister_port and port_clean_thread_queue
    | WaitDrained(p: Pid)
    | CleanNext(p: Pid)
    | CleanStatus(p: Pid, o: Tid)
    | CleanPortPtr(p: Pid, o: Tid, d: Dir)
    | CleanFlag(p: Pid, o: Tid)
    | CleanReady(p: Pid, o: Tid, d: Dir)
    | CleanDone(p: Pid)

  /** One entry per thread in each sequence; `abandoned` threads lost their partner to an error. */
  datatype State = State(
    ports: seq<Port>, pc: seq<Pc>, status: seq<Status>, portPtr: seq<Option<Pid>>, closedFlag: seq<bool>,
    box: seq<Box>, inbox: seq<seq<Msg>>, wait: seq<Wait>, abandoned: set<Tid>, nextMsg: Msg)

  ghost predicate WellFormed(s: State)
  {
    && |s.status| == |s.pc| && |s.portPtr| == |s.pc| && |s.closedFlag| == |s.pc|
    && |s.box| == |s.pc| && |s.inbox| == |s.pc| && |s.wait| == |s.pc|
  }

  // Reads and writes by thread or port index; out of range they read a default and write nothing.

  function StatusOf(s: State, t: Tid): Status { if t < |s.status| then s.status[t] else Exit }
  function SetStatus(s: State, t: Tid, x: Status): State { if t < |s.status| then s.(status := s.status[t := x]) else s }
  function CasStatus(s: State, t: Tid, was: Status, x: Status): State
  {
    if StatusOf(s, t) == was then SetStatus(s, t, x) else s
  }
  function PortPtrOf(s: State, t: Tid): Option<Pid> { if t < |s.portPtr| then s.portPtr[t] else None }
  function SetPortPtrOf(s: State, t: Tid, x: Option<Pid>): State
  {
    if t < |s.portPtr| then s.(portPtr := s.portPtr[t := x]) else s
  }
  function CasPortPtr(s: State, t: Tid, was: Option<Pid>, x: Option<Pid>): State
  {
    if PortPtrOf(s, t) == was then SetPortPtrOf(s, t, x) else s
  }
  function Goto(s: State, t: Tid, pc: Pc): State { if t < |s.pc| then s.(pc := s.pc[t := pc]) else s }
  function SetWait(s: State, t: Tid, w: Wait): State { if t < |s.wait| then s.(wait := s.wait[t := w]) else s }
  function NoPort(): Port { Port(Closed, 0, [], None, false) }
  function PortOf(s: State, p: Pid): Port { if p < |s.ports| then s.ports[p] else NoPort() }
  function SetPort(s: State, p: Pid, x: Port): State { if p < |s.ports| then s.(ports := s.ports[p := x]) else s }
  function EmptyBox(): Box { Box(None, [], [], [], None) }
  function BoxOf(s: State, t: Tid): Box { if t < |s.box| then s.box[t] else EmptyBox() }
  function SetBox(s: State, t: Tid, x: Box): State { if t < |s.box| then s.(box := s.box[t := x]) else s }

  /** ipc_get_queue_state: the kind at the tail, if any. */
  function TailKind(p: Port): Option<Dir>
  {
    if p.queue == [] then None else Some(p.queue[|p.queue| - 1].dir)
  }

  /** The opposite thread's request is dropped without waking it. */
  function Abandon(s: State, o: Tid): State
  {
    SetWait(s, o, NoWait).(abandoned := s.abandoned + {o})
  }

  // ---------------------------------------------------------------------------------------------
  // Steps
  // ---------------------------------------------------------------------------------------------

  /** port_ops_begin after its first check, and port_ops_end. */
  function GateStep(s: State, t: Tid, pc: Pc): State
    requires pc.CountUp? || pc.Recheck? || pc.CountUndo? || pc.CountDown? || pc.CountDownBlocked?
  {
    var port := PortOf(s, pc.p);
    match pc
    case CountUp(d, p) => Goto(SetPort(s, p, port.(count := port.count + 1)), t, Recheck(d, p))
    case Recheck(d, p) => Goto(s, t, if port.life == Registered then TryMatch(d, p) else CountUndo(d, p))
    case CountUndo(d, p) =>
      Goto(SetPort(s, p, port.(count := port.count - 1)), t, if d.Send? then OrphanPending else Idle)
    case CountDown(p) => Goto(SetPort(s, p, port.(count := port.count - 1)), t, Idle)
    case CountDownBlocked(d, p) => Goto(SetPort(s, p, port.(count := port.count - 1)), t, Asleep(d, p))
  }

  /** ipc_port_try_match; with no partner a blocking call waits (`ok`) and a try call gives up. */
  function MatchStep(s: State, t: Tid, pc: Pc, ok: bool): State
    requires pc.TryMatch? || pc.CheckStatus? || pc.ClearStale? || pc.Claim?
  {
    match pc
    case TryMatch(d, p) =>
      var port := PortOf(s, p);
      if port.queue != [] && port.queue[0].dir == Opposite(d) then
        var o := port.queue[0].thread;
        Goto(SetWait(SetPort(s, p, port.(queue := port.queue[1..])), o, Held(t, p, Opposite(d))), t, CheckStatus(d, p, o))
      else Goto(s, t, if ok then SetBlocked(d, p) else CountDown(p))
    case CheckStatus(d, p, o) =>
      Goto(s, t, if StatusOf(s, o) != Blocked(Opposite(d)) then ClearStale(d, p, o) else Claim(d, p, o))
    case ClearStale(d, p, o) =>
      Goto(SetWait(CasPortPtr(s, o, Some(p), None), o, NoWait), t, TryMatch(d, p))
    case Claim(d, p, o) =>
      if PortPtrOf(s, o) == Some(p) then Goto(SetPortPtrOf(s, o, None), t, CheckReceiver(d, p, o))
      else Goto(SetWait(s, o, NoWait), t, TryMatch(d, p))
  }

  function SenderOf(t: Tid, d: Dir, o: Tid): Tid { if d.Send? then t else o }
  function ReceiverOf(t: Tid, d: Dir, o: Tid): Tid { if d.Send? then o else t }

  /** A transfer failed with anything but "try again": a puller retries on "no message". */
  function NoMessage(s: State, t: Tid, d: Dir, p: Pid, o: Tid): State
  {
    if d.Recv? then Goto(s, t, CheckReceiver(d, p, o)) else Goto(Abandon(s, o), t, CountDown(p))
  }

  /** The message in hand is gone for good. */
  function Finish(b: Box, m: Msg, fate: Fate): Box
  {
    b.(done := b.done + [(m, fate)], flight := None)
  }

  /** ipc_transfer_message up to the message in hand; `ok` is false when an allocation fails. */
  function TakeStep(s: State, t: Tid, pc: Pc, ok: bool): State
    requires pc.CheckReceiver? || pc.TakePending? || pc.TakeQueued? || pc.CheckSender?
  {
    var sender := SenderOf(t, pc.d, pc.o);
    var b := BoxOf(s, sender);
    match pc
    case CheckReceiver(d, p, o) =>
      if StatusOf(s, ReceiverOf(t, d, o)) == Exit then TryAgain(s, t, d, p, o)
      else if !ok then Goto(Abandon(s, o), t, CountDown(p))
      else Goto(s, t, TakePending(d, p, o))
    case TakePending(d, p, o) =>
      if b.pending.Some? then
        Goto(SetBox(s, sender, b.(pending := None, flight := Some((b.pending.value, t)))), t, Deliver(d, p, o, b.pending.value))
      else Goto(s, t, TakeQueued(d, p, o))
    case TakeQueued(d, p, o) =>
      if b.queue == [] then NoMessage(s, t, d, p, o)
      else
        Goto(SetBox(s, sender, b.(queue := b.queue[1..], flight := Some((b.queue[0], t)))), t, CheckSender(d, p, o, b.queue[0]))
    case CheckSender(d, p, o, m) =>
      if StatusOf(s, sender) == Exit then NoMessage(SetBox(s, sender, Finish(b, m, Dropped)), t, d, p, o)
      else Goto(s, t, Deliver(d, p, o, m))
  }

  /** The receiver is exiting: a pusher looks for another one, a puller gives up. */
  function TryAgain(s: State, t: Tid, d: Dir, p: Pid, o: Tid): State
  {
    if d.Send? then Goto(SetWait(s, o, NoWait), t, TryMatch(d, p)) else Goto(Abandon(s, o), t, CountDown(p))
  }

  /** ipc_transfer_message with the message in hand; `ok` is false when its data is invalid. */
  function GiveStep(s: State, t: Tid, pc: Pc, ok: bool): State
    requires pc.Deliver? || pc.RecheckReceiver? || pc.PutBack? || pc.Wake?
  {
    var sender, receiver := SenderOf(t, pc.d, pc.o), ReceiverOf(t, pc.d, pc.o);
    var b := BoxOf(s, sender);
    match pc
    case Deliver(d, p, o, m) =>
      if !ok then NoMessage(SetBox(s, sender, Finish(b, m, Dropped)), t, d, p, o)
      else
        var s1 := if receiver < |s.inbox| then s.(inbox := s.inbox[receiver := s.inbox[receiver] + [m]]) else s;
        Goto(s1, t, RecheckReceiver(d, p, o, m))
    case RecheckReceiver(d, p, o, m) =>
      if StatusOf(s, receiver) == Exit then Goto(s, t, PutBack(d, p, o, m))
      else Goto(SetBox(s, sender, Finish(b, m, Accepted(receiver))), t, Wake(d, p, o))
    case PutBack(d, p, o, m) =>
      if b.pending.None? then TryAgain(SetBox(s, sender, b.(pending := Some(m), flight := None)), t, d, p, o)
      else Goto(Abandon(SetBox(s, sender, Finish(b, m, Dropped)), o), t, CountDown(p))
    case Wake(d, p, o) =>
      Goto(SetWait(CasStatus(s, o, Blocked(Opposite(d)), Ready), o, NoWait), t, CountDown(p))
  }

  /** Blocking on a port; `ok` is false when the request cannot be allocated. */
  function BlockStep(s: State, t: Tid, pc: Pc, ok: bool): State
    requires pc.SetBlocked? || pc.ReadTail? || pc.SetPortPtr? || pc.Enqueue? || pc.Unblock?
  {
    match pc
    case SetBlocked(d, p) => Goto(SetStatus(s, t, Blocked(d)), t, ReadTail(d, p, StatusOf(s, t)))
    case ReadTail(d, p, was) =>
      var kind := TailKind(PortOf(s, p));
      if kind == Some(Opposite(d)) then Goto(s, t, Unblock(d, p, was, true))
      else if !ok then Goto(s, t, Unblock(d, p, was, false))
      else Goto(s, t, SetPortPtr(d, p, was, kind))
    case SetPortPtr(d, p, was, tail) =>
      if PortPtrOf(s, t) != None then Goto(s, t, Unblock(d, p, was, true))
      else Goto(SetPortPtrOf(s, t, Some(p)), t, Enqueue(d, p, was, tail))
    case Enqueue(d, p, was, tail) =>
      var port := PortOf(s, p);
      if TailKind(port) == tail then
        Goto(SetWait(SetPort(s, p, port.(queue := port.queue + [Request(t, d)])), t, Queued(p, d)), t, CountDownBlocked(d, p))
      else Goto(SetPortPtrOf(s, t, None), t, Unblock(d, p, was, true))
    case Unblock(d, p, was, retry) =>
      Goto(CasStatus(s, t, Blocked(d), was), t, if retry then TryMatch(d, p) else CountDown(p))
  }

  /** Back from schedule(), and the dropping of a message that a closed port left behind. */
  function OrphanStep(s: State, t: Tid, pc: Pc): State
    requires pc.Woken? || pc.OrphanPending? || pc.OrphanQueued?
  {
    var b := BoxOf(s, t);
    match pc
    case Woken(d, p) =>
      if t < |s.closedFlag| && s.closedFlag[t] then
        Goto(s.(closedFlag := s.closedFlag[t := false]), t, if d.Send? then OrphanPending else Idle)
      else Goto(s, t, Idle)
    case OrphanPending =>
      if b.pending.Some? then Goto(SetBox(s, t, Finish(b.(pending := None), b.pending.value, Dropped)), t, Idle)
      else Goto(s, t, OrphanQueued)
    case OrphanQueued =>
      if b.queue != [] then Goto(SetBox(s, t, Finish(b.(queue := b.queue[1..]), b.queue[0], Dropped)), t, Idle)
      else Goto(s, t, Idle)
  }

  /** unregister_port after the port left the table. */
  function CloseStep(s: State, t: Tid, pc: Pc): State
    requires pc.WaitDrained? || pc.CleanNext? || pc.CleanStatus? || pc.CleanPortPtr? || pc.CleanFlag?
             || pc.CleanReady? || pc.CleanDone?
  {
    var port := PortOf(s, pc.p);
    match pc
    case WaitDrained(p) =>
      if port.count == 0 then Goto(SetPort(s, p, port.(drained := true)), t, CleanNext(p)) else s
    case CleanNext(p) =>
      if port.queue == [] then Goto(s, t, CleanDone(p))
      else
        var r := port.queue[0];
        Goto(SetWait(SetPort(s, p, port.(queue := port.queue[1..])), r.thread, Held(t, p, r.dir)), t, CleanStatus(p, r.thread))
    case CleanStatus(p, o) =>
      if StatusOf(s, o).Blocked? then Goto(s, t, CleanPortPtr(p, o, StatusOf(s, o).dir))
      else Goto(SetWait(s, o, NoWait), t, CleanNext(p))
    case CleanPortPtr(p, o, d) =>
      Goto(CasPortPtr(s, o, Some(p), None), t, if d.Send? then CleanFlag(p, o) else CleanReady(p, o, d))
    case CleanFlag(p, o) =>
      var s1 := if o < |s.closedFlag| then s.(closedFlag := s.closedFlag[o := true]) else s;
      Goto(s1, t, CleanReady(p, o, Send))
    case CleanReady(p, o, d) =>
      Goto(SetWait(CasStatus(s, o, Blocked(d), Ready), o, NoWait), t, CleanNext(p))
    case CleanDone(p) => Goto(if port.life == Closing then SetPort(s, p, port.(life := Closed)) else s, t, Idle)
  }

  // ---------------------------------------------------------------------------------------------
  // Runs
  // ---------------------------------------------------------------------------------------------

  /** `ok` resolves what the environment decides: allocations, admission, blocking or try call. */
  datatype Action =
    | Advance(ok: bool)
    | Start(d: Dir, p: Pid, ok: bool)
    | QueueMessage
    | Register(p: Pid)
    | Close(p: Pid)
    | Dispatch
    | Kill

  predicate IsGate(pc: Pc) { pc.CountUp? || pc.Recheck? || pc.CountUndo? || pc.CountDown? || pc.CountDownBlocked? }
  predicate IsMatch(pc: Pc) { pc.TryMatch? || pc.CheckStatus? || pc.ClearStale? || pc.Claim? }
  predicate IsTake(pc: Pc) { pc.CheckReceiver? || pc.TakePending? || pc.TakeQueued? || pc.CheckSender? }
  predicate IsGive(pc: Pc) { pc.Deliver? || pc.RecheckReceiver? || pc.PutBack? || pc.Wake? }
  predicate IsProbe(pc: Pc) { pc.CheckReceiver? || pc.TakePending? }
  predicate IsHandOver(pc: Pc) { pc.Deliver? || pc.RecheckReceiver? }
  predicate IsSettle(pc: Pc) { pc.PutBack? || pc.Wake? }
  predicate IsBlock(pc: Pc) { pc.SetBlocked? || pc.ReadTail? || pc.SetPortPtr? || pc.Enqueue? || pc.Unblock? }
  predicate IsOrphan(pc: Pc) { pc.Woken? || pc.OrphanPending? || pc.OrphanQueued? }
  predicate IsClose(pc: Pc)
  {
    pc.WaitDrained? || pc.CleanNext? || pc.CleanStatus? || pc.CleanPortPtr? || pc.CleanFlag? || pc.CleanReady?
    || pc.CleanDone?
  }

  predicate Enabled(s: State, t: Tid, a: Action)
  {
    && t < |s.pc|
    && match a
       case Advance(_) => !s.pc[t].Idle? && !s.pc[t].Asleep?
       case Start(_, p, _) => s.pc[t].Idle? && p < |s.ports|
       case QueueMessage => s.pc[t].Idle?
       case Register(p) => s.pc[t].Idle? && p < |s.ports| && s.ports[p].life == Active
       case Close(p) => s.pc[t].Idle? && p < |s.ports|
       case Dispatch => true
       case Kill => true
  }

  function Step(s: State, t: Tid, ok: bool): State
    requires t < |s.pc| && !s.pc[t].Idle? && !s.pc[t].Asleep?
  {
    var pc := s.pc[t];
    if IsGate(pc) then GateStep(s, t, pc)
    else if IsMatch(pc) then MatchStep(s, t, pc, ok)
    else if IsTake(pc) then TakeStep(s, t, pc, ok)
    else if IsGive(pc) then GiveStep(s, t, pc, ok)
    else if IsBlock(pc) then BlockStep(s, t, pc, ok)
    else if IsOrphan(pc) then OrphanStep(s, t, pc)
    else CloseStep(s, t, pc)
  }

  /** The first check of port_ops_begin. */
  function StartStep(s: State, t: Tid, d: Dir, p: Pid, ok: bool): State
  {
    Goto(s, t, if PortOf(s, p).life == Registered && ok then CountUp(d, p) else if d.Send? then OrphanPending else Idle)
  }

  /** enqueue_msg_for_send. */
  function QueueMessageStep(s: State, t: Tid): State
  {
    var b := BoxOf(s, t);
    SetBox(s, t, b.(queue := b.queue + [s.nextMsg], sent := b.sent + [s.nextMsg])).(nextMsg := s.nextMsg + 1)
  }

  /** unregister_port under the table lock: only a registered port is taken out. */
  function CloseStart(s: State, t: Tid, p: Pid): State
  {
    var port := PortOf(s, p);
    if port.life == Registered then Goto(SetPort(s, p, port.(life := Closing, closer := Some(t))), t, WaitDrained(p))
    else s
  }

  /** The scheduler: a sleeping thread resumes only when it is ready. */
  function DispatchStep(s: State, t: Tid): State
  {
    match StatusOf(s, t)
    case Running => if t < |s.pc| && s.pc[t].Asleep? then s else SetStatus(s, t, Ready)
    case Ready =>
      if t < |s.pc| && s.pc[t].Asleep? then Goto(SetStatus(s, t, Running), t, Woken(s.pc[t].d, s.pc[t].p))
      else SetStatus(s, t, Running)
    case _ => s
  }

  function Apply(s: State, t: Tid, a: Action): State
    requires Enabled(s, t, a)
  {
    match a
    case Advance(ok) => Step(s, t, ok)
    case Start(d, p, ok) => StartStep(s, t, d, p, ok)
    case QueueMessage => QueueMessageStep(s, t)
    case Register(p) => SetPort(s, p, s.ports[p].(life := Registered))
    case Close(p) => CloseStart(s, t, p)
    case Dispatch => DispatchStep(s, t)
    case Kill => SetStatus(s, t, Exit)
  }

  predicate Init(s: State)
  {
    && |s.status| == |s.pc| && |s.portPtr| == |s.pc| && |s.closedFlag| == |s.pc|
    && |s.box| == |s.pc| && |s.inbox| == |s.pc| && |s.wait| == |s.pc|
    && (forall p :: 0 <= p < |s.ports| ==> s.ports[p] == Port(Active, 0, [], None, false))
    && (forall t :: 0 <= t < |s.pc| ==>
          && s.pc[t] == Idle && s.portPtr[t] == None && s.box[t] == EmptyBox() && s.wait[t] == NoWait
          && !s.status[t].Blocked? && !s.closedFlag[t])
    && s.abandoned == {}
  }

  // ---------------------------------------------------------------------------------------------
  // Invariants
  // ---------------------------------------------------------------------------------------------

  /** Past the admission check: the thread may match, transfer or enqueue on the port. */
  predicate Inside(pc: Pc, p: Pid)
  {
    (IsMatch(pc) || IsTake(pc) || IsGive(pc) || IsBlock(pc) || pc.CountDown? || pc.CountDownBlocked?) && pc.p == p
  }

  /** The thread has incremented the port's operation count and not yet decremented it. */
  predicate Counted(pc: Pc, p: Pid)
  {
    Inside(pc, p) || ((pc.Recheck? || pc.CountUndo?) && pc.p == p)
  }

  function CountIn(pcs: seq<Pc>, p: Pid): nat
  {
    if pcs == [] then 0 else (if Counted(pcs[0], p) then 1 else 0) + CountIn(pcs[1..], p)
  }

  lemma {:induction false} CountInUpdate(pcs: seq<Pc>, p: Pid, t: nat, pc: Pc)
    requires t < |pcs|
    ensures CountIn(pcs[t := pc], p)
            == CountIn(pcs, p) - (if Counted(pcs[t], p) then 1 else 0) + (if Counted(pc, p) then 1 else 0)
  {
    if t == 0 {
      assert pcs[t := pc][1..] == pcs[1..];
    } else {
      assert pcs[t := pc][1..] == pcs[1..][t - 1 := pc];
      CountInUpdate(pcs[1..], p, t - 1, pc);
    }
  }

  lemma {:induction false} CountInZero(pcs: seq<Pc>, p: Pid)
    ensures CountIn(pcs, p) == 0 <==> forall t :: 0 <= t < |pcs| ==> !Counted(pcs[t], p)
  {
    if pcs != [] {
      CountInZero(pcs[1..], p);
      assert forall t :: 1 <= t < |pcs| ==> pcs[t] == pcs[1..][t - 1];
    }
  }

  /** The rundown protocol: the count is exact, and a drained port admits nobody any more. */
  ghost predicate GateOk(s: State, p: Pid)
    requires p < |s.ports|
  {
    var port := s.ports[p];
    && port.count == CountIn(s.pc, p)
    && (port.drained ==> (port.life == Closing || port.life == Closed)
                         && forall t :: 0 <= t < |s.pc| ==> !Inside(s.pc[t], p))
    && (port.life == Closed ==> port.drained && port.queue == [])
    && (port.life == Active || port.life == Registered ==> port.closer == None)
  }

  ghost predicate CloserOk(s: State, t: Tid)
    requires t < |s.pc|
  {
    var pc := s.pc[t];
    IsClose(pc) ==>
      && pc.p < |s.ports| && s.ports[pc.p].closer == Some(t) && s.ports[pc.p].life == Closing
      && (!pc.WaitDrained? ==> s.ports[pc.p].drained)
      && (pc.CleanDone? ==> s.ports[pc.p].queue == [])
  }

  ghost predicate PortsInRange(s: State)
  {
    forall t :: 0 <= t < |s.pc| ==> InRange(s.pc[t], |s.ports|)
  }

  predicate InRange(pc: Pc, n: nat)
  {
    (IsGate(pc) || IsMatch(pc) || IsTake(pc) || IsGive(pc) || IsBlock(pc) || IsClose(pc)) ==> pc.p < n
  }

  ghost predicate GateInv(s: State)
  {
    && PortsInRange(s)
    && (forall p :: 0 <= p < |s.ports| ==> GateOk(s, p))
    && (forall t :: 0 <= t < |s.pc| ==> CloserOk(s, t))
  }

  /** Every step changes at most one port and one program counter. */
  ghost predicate Local(s: State, s': State, t: Tid, p: Pid)
    requires t < |s.pc|
  {
    && |s'.pc| == |s.pc| && |s'.ports| == |s.ports|
    && s'.pc == s.pc[t := s'.pc[t]]
    && forall q :: 0 <= q < |s.ports| && q != p ==> s'.ports[q] == s.ports[q]
  }

  /** What a step must respect to keep the rundown protocol. */
  ghost predicate GateRespected(s: State, s': State, t: Tid, p: Pid)
    requires t < |s.pc| && Local(s, s', t, p)
  {
    var pc, pc' := s.pc[t], s'.pc[t];
    && InRange(pc', |s.ports|)
    && (forall q: Pid :: q != p ==> Counted(pc', q) == Counted(pc, q))
    && (forall q: Pid :: Inside(pc', q) ==> Inside(pc, q) || (q < |s.ports| && s.ports[q].life == Registered))
    && (p < |s.ports| ==>
          var port, port' := s.ports[p], s'.ports[p];
          && port'.count - port.count == (if Counted(pc', p) then 1 else 0) - (if Counted(pc, p) then 1 else 0)
          && (port'.life == port.life || (port.life == Active && port'.life == Registered)
              || (port.life == Registered && port'.life == Closing)
              || (port.life == Closing && port'.life == Closed && pc.CleanDone? && pc.p == p))
          && (port'.drained == port.drained || (pc.WaitDrained? && pc.p == p && port.count == 0))
          && (port'.closer == port.closer || (port.life == Registered && port'.life == Closing))
          && (port'.life == Active || port'.life == Registered ==> port'.closer == None)
          && (port.drained ==> |port'.queue| <= |port.queue|)
          && (port.queue == [] && port'.queue != [] ==> Inside(pc, p)))
  }

  lemma GateKeptPort(s: State, s': State, t: Tid, p: Pid, q: Pid)
    requires t < |s.pc| && GateInv(s) && Local(s, s', t, p) && GateRespected(s, s', t, p) && q < |s.ports|
    ensures GateOk(s', q)
  {
    assert GateOk(s, q) && CloserOk(s, t);
    CountInUpdate(s.pc, q, t, s'.pc[t]);
    CountInZero(s.pc, q);
    assert !Inside(s.pc[t], q) || !s.ports[q].drained;
  }

  lemma GateKept(s: State, s': State, t: Tid, p: Pid)
    requires t < |s.pc| && GateInv(s) && Local(s, s', t, p) && GateRespected(s, s', t, p)
    requires CloserOk(s', t)
    ensures GateInv(s')
  {
    forall q | 0 <= q < |s'.ports|
      ensures GateOk(s', q)
    {
      GateKeptPort(s, s', t, p, q);
    }
    forall u | 0 <= u < |s'.pc|
      ensures CloserOk(s', u) && InRange(s'.pc[u], |s'.ports|)
    {
      assert CloserOk(s, u) && CloserOk(s, t);
    }
  }

  /** What every step of a thread outside port_ops_begin, port_ops_end and closing does to the gate. */
  ghost predicate GateQuiet(s: State, s': State, t: Tid, p: Pid)
    requires t < |s.pc| && p < |s.ports|
  {
    && Local(s, s', t, p) && !IsClose(s'.pc[t])
    && s'.ports[p] == s.ports[p].(queue := s'.ports[p].queue)
    && Inside(s.pc[t], p) && Inside(s'.pc[t], p)
    && |s'.ports| == |s.ports|
  }

  lemma GateQuietKept(s: State, s': State, t: Tid, p: Pid)
    requires t < |s.pc| && GateInv(s) && p < |s.ports| && GateQuiet(s, s', t, p)
    ensures GateInv(s')
  {
    assert GateOk(s, p) && CloserOk(s, t) && InRange(s.pc[t], |s.ports|);
    GateKept(s, s', t, p);
  }

  lemma TryMatchQuiet(s: State, t: Tid, ok: bool)
    requires t < |s.pc| && s.pc[t].TryMatch? && s.pc[t].p < |s.ports|
    ensures GateQuiet(s, MatchStep(s, t, s.pc[t], ok), t, s.pc[t].p)
  {
  }

  lemma CheckStatusQuiet(s: State, t: Tid, ok: bool)
    requires t < |s.pc| && s.pc[t].CheckStatus? && s.pc[t].p < |s.ports|
    ensures GateQuiet(s, MatchStep(s, t, s.pc[t], ok), t, s.pc[t].p)
  {
  }

  lemma ClearStaleQuiet(s: State, t: Tid, ok: bool)
    requires t < |s.pc| && s.pc[t].ClearStale? && s.pc[t].p < |s.ports|
    ensures GateQuiet(s, MatchStep(s, t, s.pc[t], ok), t, s.pc[t].p)
  {
  }

  lemma ClaimQuiet(s: State, t: Tid, ok: bool)
    requires t < |s.pc| && s.pc[t].Claim? && s.pc[t].p < |s.ports|
    ensures GateQuiet(s, MatchStep(s, t, s.pc[t], ok), t, s.pc[t].p)
  {
  }

  lemma MatchQuiet(s: State, t: Tid, ok: bool)
    requires t < |s.pc| && IsMatch(s.pc[t]) && s.pc[t].p < |s.ports|
    ensures GateQuiet(s, MatchStep(s, t, s.pc[t], ok), t, s.pc[t].p)
  {
    match s.pc[t]
    case TryMatch(_, _) => TryMatchQuiet(s, t, ok);
    case CheckStatus(_, _, _) => CheckStatusQuiet(s, t, ok);
    case ClearStale(_, _, _) => ClearStaleQuiet(s, t, ok);
    case Claim(_, _, _) => ClaimQuiet(s, t, ok);
  }

  lemma CheckReceiverQuiet(s: State, t: Tid, ok: bool)
    requires t < |s.pc| && s.pc[t].CheckReceiver? && s.pc[t].p < |s.ports|
    ensures GateQuiet(s, TakeStep(s, t, s.pc[t], ok), t, s.pc[t].p)
  {
  }

  lemma TakePendingQuiet(s: State, t: Tid, ok: bool)
    requires t < |s.pc| && s.pc[t].TakePending? && s.pc[t].p < |s.ports|
    ensures GateQuiet(s, TakeStep(s, t, s.pc[t], ok), t, s.pc[t].p)
  {
  }

  lemma ProbeQuiet(s: State, t: Tid, ok: bool)
    requires t < |s.pc| && IsProbe(s.pc[t]) && s.pc[t].p < |s.ports|
    ensures GateQuiet(s, TakeStep(s, t, s.pc[t], ok), t, s.pc[t].p)
  {
    match s.pc[t]
    case CheckReceiver(_, _, _) => CheckReceiverQuiet(s, t, ok);
    case TakePending(_, _, _) => TakePendingQuiet(s, t, ok);
  }

  lemma TakeQueuedQuiet(s: State, t: Tid, ok: bool)
    requires t < |s.pc| && s.pc[t].TakeQueued? && s.pc[t].p < |s.ports|
    ensures GateQuiet(s, TakeStep(s, t, s.pc[t], ok), t, s.pc[t].p)
  {
  }

  lemma CheckSenderQuiet(s: State, t: Tid, ok: bool)
    requires t < |s.pc| && s.pc[t].CheckSender? && s.pc[t].p < |s.ports|
    ensures GateQuiet(s, TakeStep(s, t, s.pc[t], ok), t, s.pc[t].p)
  {
  }

  lemma TakeQuiet(s: State, t: Tid, ok: bool)
    requires t < |s.pc| && IsTake(s.pc[t]) && s.pc[t].p < |s.ports|
    ensures GateQuiet(s, TakeStep(s, t, s.pc[t], ok), t, s.pc[t].p)
  {
    if IsProbe(s.pc[t]) { ProbeQuiet(s, t, ok); }
    else if s.pc[t].TakeQueued? { TakeQueuedQuiet(s, t, ok); }
    else { CheckSenderQuiet(s, t, ok); }
  }

  lemma DeliverQuiet(s: State, t: Tid, ok: bool)
    requires t < |s.pc| && s.pc[t].Deliver? && s.pc[t].p < |s.ports|
    ensures GateQuiet(s, GiveStep(s, t, s.pc[t], ok), t, s.pc[t].p)
  {
  }

  lemma RecheckReceiverQuiet(s: State, t: Tid, ok: bool)
    requires t < |s.pc| && s.pc[t].RecheckReceiver? && s.pc[t].p < |s.ports|
    ensures GateQuiet(s, GiveStep(s, t, s.pc[t], ok), t, s.pc[t].p)
  {
  }

  lemma HandOverQuiet(s: State, t: Tid, ok: bool)
    requires t < |s.pc| && IsHandOver(s.pc[t]) && s.pc[t].p < |s.ports|
    ensures GateQuiet(s, GiveStep(s, t, s.pc[t], ok), t, s.pc[t].p)
  {
    match s.pc[t]
    case Deliver(_, _, _, _) => DeliverQuiet(s, t, ok);
    case RecheckReceiver(_, _, _, _) => RecheckReceiverQuiet(s, t, ok);
  }

  lemma PutBackQuietSend(s: State, t: Tid, ok: bool)
    requires t < |s.pc| && s.pc[t].PutBack? && s.pc[t].d.Send? && s.pc[t].p < |s.ports|
    ensures GateQuiet(s, GiveStep(s, t, s.pc[t], ok), t, s.pc[t].p)
  {
  }

  lemma PutBackQuietRecv(s: State, t: Tid, ok: bool)
    requires t < |s.pc| && s.pc[t].PutBack? && s.pc[t].d.Recv? && s.pc[t].p < |s.ports|
    ensures GateQuiet(s, GiveStep(s, t, s.pc[t], ok), t, s.pc[t].p)
  {
  }

  lemma PutBackQuiet(s: State, t: Tid, ok: bool)
    requires t < |s.pc| && s.pc[t].PutBack? && s.pc[t].p < |s.ports|
    ensures GateQuiet(s, GiveStep(s, t, s.pc[t], ok), t, s.pc[t].p)
  {
    if s.pc[t].d.Send? { PutBackQuietSend(s, t, ok); } else { PutBackQuietRecv(s, t, ok); }
  }

  lemma WakeQuiet(s: State, t: Tid, ok: bool)
    requires t < |s.pc| && s.pc[t].Wake? && s.pc[t].p < |s.ports|
    ensures GateQuiet(s, GiveStep(s, t, s.pc[t], ok), t, s.pc[t].p)
  {
  }

  lemma SettleQuiet(s: State, t: Tid, ok: bool)
    requires t < |s.pc| && IsSettle(s.pc[t]) && s.pc[t].p < |s.ports|
    ensures GateQuiet(s, GiveStep(s, t, s.pc[t], ok), t, s.pc[t].p)
  {
    match s.pc[t]
    case PutBack(_, _, _, _) => PutBackQuiet(s, t, ok);
    case Wake(_, _, _) => WakeQuiet(s, t, ok);
  }

  lemma GiveQuiet(s: State, t: Tid, ok: bool)
    requires t < |s.pc| && IsGive(s.pc[t]) && s.pc[t].p < |s.ports|
    ensures GateQuiet(s, GiveStep(s, t, s.pc[t], ok), t, s.pc[t].p)
  {
    if IsHandOver(s.pc[t]) { HandOverQuiet(s, t, ok); } else { SettleQuiet(s, t, ok); }
  }

  lemma SetBlockedQuiet(s: State, t: Tid, ok: bool)
    requires t < |s.pc| && s.pc[t].SetBlocked? && s.pc[t].p < |s.ports|
    ensures GateQuiet(s, BlockStep(s, t, s.pc[t], ok), t, s.pc[t].p)
  {
  }

  lemma ReadTailQuiet(s: State, t: Tid, ok: bool)
    requires t < |s.pc| && s.pc[t].ReadTail? && s.pc[t].p < |s.ports|
    ensures GateQuiet(s, BlockStep(s, t, s.pc[t], ok), t, s.pc[t].p)
  {
  }

  lemma SetPortPtrQuiet(s: State, t: Tid, ok: bool)
    requires t < |s.pc| && s.pc[t].SetPortPtr? && s.pc[t].p < |s.ports|
    ensures GateQuiet(s, BlockStep(s, t, s.pc[t], ok), t, s.pc[t].p)
  {
  }

  lemma EnqueueQuiet(s: State, t: Tid, ok: bool)
    requires t < |s.pc| && s.pc[t].Enqueue? && s.pc[t].p < |s.ports|
    ensures GateQuiet(s, BlockStep(s, t, s.pc[t], ok), t, s.pc[t].p)
  {
  }

  lemma UnblockQuiet(s: State, t: Tid, ok: bool)
    requires t < |s.pc| && s.pc[t].Unblock? && s.pc[t].p < |s.ports|
    ensures GateQuiet(s, BlockStep(s, t, s.pc[t], ok), t, s.pc[t].p)
  {
  }

  lemma BlockQuiet(s: State, t: Tid, ok: bool)
    requires t < |s.pc| && IsBlock(s.pc[t]) && s.pc[t].p < |s.ports|
    ensures GateQuiet(s, BlockStep(s, t, s.pc[t], ok), t, s.pc[t].p)
  {
    match s.pc[t]
    case SetBlocked(_, _) => SetBlockedQuiet(s, t, ok);
    case ReadTail(_, _, _) => ReadTailQuiet(s, t, ok);
    case SetPortPtr(_, _, _, _) => SetPortPtrQuiet(s, t, ok);
    case Enqueue(_, _, _, _) => EnqueueQuiet(s, t, ok);
    case Unblock(_, _, _, _) => UnblockQuiet(s, t, ok);
  }

  lemma CountUpGate(s: State, t: Tid)
    requires t < |s.pc| && s.pc[t].CountUp? && s.pc[t].p < |s.ports| && GateOk(s, s.pc[t].p)
    ensures var s' := GateStep(s, t, s.pc[t]); Local(s, s', t, s.pc[t].p) && GateRespected(s, s', t, s.pc[t].p) && !IsClose(s'.pc[t])
  {
  }

  lemma RecheckGate(s: State, t: Tid)
    requires t < |s.pc| && s.pc[t].Recheck? && s.pc[t].p < |s.ports| && GateOk(s, s.pc[t].p)
    ensures var s' := GateStep(s, t, s.pc[t]); Local(s, s', t, s.pc[t].p) && GateRespected(s, s', t, s.pc[t].p) && !IsClose(s'.pc[t])
  {
  }

  lemma CountUndoGate(s: State, t: Tid)
    requires t < |s.pc| && s.pc[t].CountUndo? && s.pc[t].p < |s.ports| && GateOk(s, s.pc[t].p)
    ensures var s' := GateStep(s, t, s.pc[t]); Local(s, s', t, s.pc[t].p) && GateRespected(s, s', t, s.pc[t].p) && !IsClose(s'.pc[t])
  {
  }

  lemma CountDownGate(s: State, t: Tid)
    requires t < |s.pc| && s.pc[t].CountDown? && s.pc[t].p < |s.ports| && GateOk(s, s.pc[t].p)
    ensures var s' := GateStep(s, t, s.pc[t]); Local(s, s', t, s.pc[t].p) && GateRespected(s, s', t, s.pc[t].p) && !IsClose(s'.pc[t])
  {
  }

  lemma CountDownBlockedGate(s: State, t: Tid)
    requires t < |s.pc| && s.pc[t].CountDownBlocked? && s.pc[t].p < |s.ports| && GateOk(s, s.pc[t].p)
    ensures var s' := GateStep(s, t, s.pc[t]); Local(s, s', t, s.pc[t].p) && GateRespected(s, s', t, s.pc[t].p) && !IsClose(s'.pc[t])
  {
  }

  lemma GateGate(s: State, t: Tid)
    requires t < |s.pc| && GateInv(s) && IsGate(s.pc[t])
    ensures GateInv(GateStep(s, t, s.pc[t]))
  {
    var p := s.pc[t].p;
    assert InRange(s.pc[t], |s.ports|);
    assert GateOk(s, p);
    match s.pc[t] {
      case CountUp(_, _) => CountUpGate(s, t);
      case Recheck(_, _) => RecheckGate(s, t);
      case CountUndo(_, _) => CountUndoGate(s, t);
      case CountDown(_) => CountDownGate(s, t);
      case CountDownBlocked(_, _) => CountDownBlockedGate(s, t);
    }
    GateKept(s, GateStep(s, t, s.pc[t]), t, p);
  }

  lemma GateOrphan(s: State, t: Tid)
    requires t < |s.pc| && GateInv(s) && IsOrphan(s.pc[t])
    ensures GateInv(OrphanStep(s, t, s.pc[t]))
  {
    assert CloserOk(s, t) && InRange(s.pc[t], |s.ports|);
    OrphanLocal(s, t);
    GateKept(s, OrphanStep(s, t, s.pc[t]), t, |s.ports|);
  }

  lemma WokenLocal(s: State, t: Tid)
    requires t < |s.pc| && s.pc[t].Woken?
    ensures var s' := OrphanStep(s, t, s.pc[t]); Local(s, s', t, |s.ports|) && GateRespected(s, s', t, |s.ports|) && CloserOk(s', t)
  {
  }

  lemma OrphanPendingLocal(s: State, t: Tid)
    requires t < |s.pc| && s.pc[t].OrphanPending?
    ensures var s' := OrphanStep(s, t, s.pc[t]); Local(s, s', t, |s.ports|) && GateRespected(s, s', t, |s.ports|) && CloserOk(s', t)
  {
  }

  lemma OrphanQueuedLocal(s: State, t: Tid)
    requires t < |s.pc| && s.pc[t].OrphanQueued?
    ensures var s' := OrphanStep(s, t, s.pc[t]); Local(s, s', t, |s.ports|) && GateRespected(s, s', t, |s.ports|) && CloserOk(s', t)
  {
  }

  lemma OrphanLocal(s: State, t: Tid)
    requires t < |s.pc| && IsOrphan(s.pc[t])
    ensures var s' := OrphanStep(s, t, s.pc[t]); Local(s, s', t, |s.ports|) && GateRespected(s, s', t, |s.ports|) && CloserOk(s', t)
  {
    match s.pc[t]
    case Woken(_, _) => WokenLocal(s, t);
    case OrphanPending => OrphanPendingLocal(s, t);
    case OrphanQueued => OrphanQueuedLocal(s, t);
  }

  lemma CleanGate(s: State, t: Tid)
    requires t < |s.pc|
    requires s.pc[t].CleanStatus? || s.pc[t].CleanPortPtr? || s.pc[t].CleanFlag? || s.pc[t].CleanReady?
    ensures var s' := CloseStep(s, t, s.pc[t]);
            && |s'.pc| == |s.pc| && s'.ports == s.ports && s'.pc == s.pc[t := s'.pc[t]]
            && IsClose(s'.pc[t]) && !s'.pc[t].WaitDrained? && !s'.pc[t].CleanDone? && s'.pc[t].p == s.pc[t].p
  {
  }

  lemma CleanRespects(s: State, t: Tid)
    requires t < |s.pc| && (s.pc[t].CleanStatus? || s.pc[t].CleanPortPtr? || s.pc[t].CleanFlag? || s.pc[t].CleanReady?)
    requires s.pc[t].p < |s.ports| && CloserOk(s, t) && GateOk(s, s.pc[t].p)
    ensures var s' := CloseStep(s, t, s.pc[t]); Local(s, s', t, s.pc[t].p) && GateRespected(s, s', t, s.pc[t].p) && CloserOk(s', t)
  {
    CleanGate(s, t);
  }

  lemma GateCleanPartner(s: State, t: Tid)
    requires t < |s.pc| && GateInv(s)
    requires s.pc[t].CleanStatus? || s.pc[t].CleanPortPtr? || s.pc[t].CleanFlag? || s.pc[t].CleanReady?
    ensures GateInv(CloseStep(s, t, s.pc[t]))
  {
    assert InRange(s.pc[t], |s.ports|) && CloserOk(s, t) && GateOk(s, s.pc[t].p);
    CleanRespects(s, t);
    GateKept(s, CloseStep(s, t, s.pc[t]), t, s.pc[t].p);
  }

  lemma GateWaitDrained(s: State, t: Tid)
    requires t < |s.pc| && GateInv(s) && s.pc[t].WaitDrained?
    ensures GateInv(CloseStep(s, t, s.pc[t]))
  {
    var p := s.pc[t].p;
    assert InRange(s.pc[t], |s.ports|);
    assert GateOk(s, p) && CloserOk(s, t);
    GateKept(s, CloseStep(s, t, s.pc[t]), t, p);
  }

  lemma GateCleanNext(s: State, t: Tid)
    requires t < |s.pc| && GateInv(s) && s.pc[t].CleanNext?
    ensures GateInv(CloseStep(s, t, s.pc[t]))
  {
    var p := s.pc[t].p;
    assert InRange(s.pc[t], |s.ports|);
    assert GateOk(s, p) && CloserOk(s, t);
    GateKept(s, CloseStep(s, t, s.pc[t]), t, p);
  }

  lemma GateCleanDone(s: State, t: Tid)
    requires t < |s.pc| && GateInv(s) && s.pc[t].CleanDone?
    ensures GateInv(CloseStep(s, t, s.pc[t]))
  {
    var p := s.pc[t].p;
    assert InRange(s.pc[t], |s.ports|);
    assert GateOk(s, p) && CloserOk(s, t);
    GateKept(s, CloseStep(s, t, s.pc[t]), t, p);
  }

  lemma StartGate(s: State, t: Tid, a: Action)
    requires Enabled(s, t, a) && (a.Start? || a.QueueMessage?) && CloserOk(s, t) && InRange(s.pc[t], |s.ports|)
    ensures var s' := Apply(s, t, a); Local(s, s', t, |s.ports|) && GateRespected(s, s', t, |s.ports|) && CloserOk(s', t)
  {
  }

  lemma DispatchGate(s: State, t: Tid, a: Action)
    requires Enabled(s, t, a) && a.Dispatch? && CloserOk(s, t) && InRange(s.pc[t], |s.ports|)
    ensures var s' := Apply(s, t, a); Local(s, s', t, |s.ports|) && GateRespected(s, s', t, |s.ports|) && CloserOk(s', t)
  {
  }

  lemma KillGate(s: State, t: Tid, a: Action)
    requires Enabled(s, t, a) && a.Kill? && CloserOk(s, t) && InRange(s.pc[t], |s.ports|)
    ensures var s' := Apply(s, t, a); Local(s, s', t, |s.ports|) && GateRespected(s, s', t, |s.ports|) && CloserOk(s', t)
  {
  }

  lemma GateThreadCall(s: State, t: Tid, a: Action)
    requires GateInv(s) && Enabled(s, t, a) && (a.Start? || a.QueueMessage? || a.Dispatch? || a.Kill?)
    ensures GateInv(Apply(s, t, a))
  {
    assert CloserOk(s, t) && InRange(s.pc[t], |s.ports|);
    if a.Dispatch? { DispatchGate(s, t, a); } else if a.Kill? { KillGate(s, t, a); } else { StartGate(s, t, a); }
    GateKept(s, Apply(s, t, a), t, |s.ports|);
  }

  lemma PortCallGate(s: State, t: Tid, a: Action)
    requires Enabled(s, t, a) && (a.Register? || a.Close?) && GateOk(s, a.p) && CloserOk(s, t)
    ensures var s' := Apply(s, t, a); Local(s, s', t, a.p) && GateRespected(s, s', t, a.p) && CloserOk(s', t)
  {
  }

  lemma GatePortCall(s: State, t: Tid, a: Action)
    requires GateInv(s) && Enabled(s, t, a) && (a.Register? || a.Close?)
    ensures GateInv(Apply(s, t, a))
  {
    assert GateOk(s, a.p) && CloserOk(s, t);
    PortCallGate(s, t, a);
    GateKept(s, Apply(s, t, a), t, a.p);
  }

  lemma GateApply(s: State, t: Tid, a: Action)
    requires GateInv(s) && Enabled(s, t, a)
    ensures GateInv(Apply(s, t, a))
  {
    if a.Advance? {
      var pc := s.pc[t];
      assert InRange(pc, |s.ports|);
      if IsGate(pc) { GateGate(s, t); }
      else if IsMatch(pc) { MatchQuiet(s, t, a.ok); GateQuietKept(s, MatchStep(s, t, pc, a.ok), t, pc.p); }
      else if IsTake(pc) { TakeQuiet(s, t, a.ok); GateQuietKept(s, TakeStep(s, t, pc, a.ok), t, pc.p); }
      else if IsGive(pc) { GiveQuiet(s, t, a.ok); GateQuietKept(s, GiveStep(s, t, pc, a.ok), t, pc.p); }
      else if IsBlock(pc) { BlockQuiet(s, t, a.ok); GateQuietKept(s, BlockStep(s, t, pc, a.ok), t, pc.p); }
      else if IsOrphan(pc) { GateOrphan(s, t); }
      else if pc.WaitDrained? { GateWaitDrained(s, t); }
      else if pc.CleanNext? { GateCleanNext(s, t); }
      else if pc.CleanDone? { GateCleanDone(s, t); }
      else { GateCleanPartner(s, t); }
    } else if a.Register? || a.Close? {
      GatePortCall(s, t, a);
    } else {
      GateThreadCall(s, t, a);
    }
  }

  // ---------------------------------------------------------------------------------------------
  // Who answers for a waiting thread
  // ---------------------------------------------------------------------------------------------

  predicate Waiting(pc: Pc, d: Dir, p: Pid) { pc == CountDownBlocked(d, p) || pc == Asleep(d, p) }

  predicate IsWaiting(pc: Pc) { pc.CountDownBlocked? || pc.Asleep? }

  /** The thread has taken another thread's request out of a queue and not let go of it. */
  predicate Holds(pc: Pc)
  {
    pc.CheckStatus? || pc.ClearStale? || pc.Claim? || IsTake(pc) || IsGive(pc)
    || pc.CleanStatus? || pc.CleanPortPtr? || pc.CleanFlag? || pc.CleanReady?
  }

  predicate HoldsDir(pc: Pc, d: Dir)
    requires Holds(pc)
  {
    if pc.CleanStatus? then true
    else if pc.CleanFlag? then d == Send
    else if pc.CleanPortPtr? || pc.CleanReady? then d == pc.d
    else d == Opposite(pc.d)
  }

  /** The partner's port pointer has not been cleared yet. */
  predicate Unclaimed(pc: Pc)
  {
    pc.CheckStatus? || pc.ClearStale? || pc.Claim? || pc.CleanStatus? || pc.CleanPortPtr?
  }

  /** A waiting thread is answered for by exactly one queue or holder, unless it was abandoned. */
  ghost predicate WaiterOk(s: State, t: Tid)
    requires WellFormed(s) && t < |s.pc|
  {
    match s.wait[t]
    case NoWait =>
      IsWaiting(s.pc[t]) && s.status[t] == Blocked(s.pc[t].d) ==> t in s.abandoned
    case Queued(p, d) =>
      && p < |s.ports| && Request(t, d) in s.ports[p].queue
      && Waiting(s.pc[t], d, p) && (s.status[t] == Blocked(d) || s.status[t] == Exit) && s.portPtr[t] == Some(p)
    case Held(a, p, d) =>
      && a < |s.pc| && Holds(s.pc[a]) && s.pc[a].o == t && s.pc[a].p == p
      && Waiting(s.pc[t], d, p) && (s.status[t] == Blocked(d) || s.status[t] == Exit)
  }

  ghost predicate HolderOk(s: State, a: Tid)
    requires WellFormed(s) && a < |s.pc|
  {
    var pc := s.pc[a];
    && (Holds(pc) ==>
          && pc.o < |s.pc| && s.wait[pc.o].Held? && s.wait[pc.o].owner == a && s.wait[pc.o].port == pc.p
          && HoldsDir(pc, s.wait[pc.o].dir)
          && (Unclaimed(pc) ==> s.portPtr[pc.o] == Some(pc.p))
          && (pc.ClearStale? || (pc.PutBack? && pc.d.Send?) ==> s.status[pc.o] == Exit)
          && (pc.CleanReady? && pc.d.Send? ==> s.closedFlag[pc.o]))
    && (pc.Enqueue? ==> s.portPtr[a] == Some(pc.p))
    && (IsBlock(pc) && !pc.SetBlocked? ==> s.status[a] == Blocked(pc.d) || s.status[a] == Exit)
  }

  ghost predicate QueueOk(s: State, p: Pid)
    requires WellFormed(s) && p < |s.ports|
  {
    var q := s.ports[p].queue;
    && (forall i :: 0 <= i < |q| ==> q[i].thread < |s.pc| && s.wait[q[i].thread] == Queued(p, q[i].dir))
    && (forall i, j :: 0 <= i < j < |q| ==> q[i].thread != q[j].thread)
  }

  ghost predicate WaitInv(s: State)
  {
    && WellFormed(s)
    && (forall t :: 0 <= t < |s.pc| ==> WaiterOk(s, t))
    && (forall t :: 0 <= t < |s.pc| ==> HolderOk(s, t))
    && (forall p :: 0 <= p < |s.ports| ==> QueueOk(s, p))
  }

  /** Thread t changes only its own variables and those of its partner o. */
  ghost predicate Touches(s: State, s': State, t: Tid, o: Tid)
    requires WellFormed(s) && t < |s.pc|
  {
    && WellFormed(s') && |s'.pc| == |s.pc| && |s'.ports| == |s.ports|
    && (forall u :: 0 <= u < |s.pc| && u != t ==> s'.pc[u] == s.pc[u])
    && (forall u :: 0 <= u < |s.pc| && u != t && u != o ==>
          && s'.status[u] == s.status[u] && s'.portPtr[u] == s.portPtr[u] && s'.wait[u] == s.wait[u]
          && s'.closedFlag[u] == s.closedFlag[u])
    && s.abandoned <= s'.abandoned
    && (forall p, r :: 0 <= p < |s.ports| && r in s.ports[p].queue && r.thread != o ==> r in s'.ports[p].queue)
    && (Holds(s.pc[t]) ==> s.pc[t].o == o)
    && (o < |s.pc| && o != t ==> s.wait[o].Queued? || (s.wait[o].Held? && s.wait[o].owner == t))
    && (o < |s.pc| && o != t ==> s'.wait[o].NoWait? || (s'.wait[o].Held? && s'.wait[o].owner == t))
    && (t == o || s.wait[t].NoWait?)
  }

  lemma OtherWaiters(s: State, s': State, t: Tid, o: Tid, u: Tid)
    requires WaitInv(s) && t < |s.pc| && Touches(s, s', t, o) && u < |s.pc| && u != t && u != o
    ensures WaiterOk(s', u)
  {
    assert WaiterOk(s, u);
  }

  lemma OtherHolders(s: State, s': State, t: Tid, o: Tid, b: Tid)
    requires WaitInv(s) && t < |s.pc| && Touches(s, s', t, o) && b < |s.pc| && b != t
    requires t != o || !s.wait[t].Held?
    ensures HolderOk(s', b)
  {
    assert HolderOk(s, b);
    if Holds(s.pc[b]) {
      assert s.pc[b].o != o && s.pc[b].o != t;
    }
    assert WaiterOk(s, b) && HolderOk(s, t);
  }

  lemma WaitKept(s: State, s': State, t: Tid, o: Tid)
    requires WaitInv(s) && t < |s.pc| && Touches(s, s', t, o) && (t != o || !s.wait[t].Held?)
    requires WaiterOk(s', t) && HolderOk(s', t) && (o < |s.pc| ==> WaiterOk(s', o))
    requires forall p :: 0 <= p < |s'.ports| ==> QueueOk(s', p)
    ensures WaitInv(s')
  {
    forall u | 0 <= u < |s'.pc|
      ensures WaiterOk(s', u) && HolderOk(s', u)
    {
      if u != t {
        OtherHolders(s, s', t, o, u);
        if u != o {
          OtherWaiters(s, s', t, o, u);
        }
      }
    }
  }

  /** No queue changed, and the partner was in none. */
  lemma QueuesSame(s: State, s': State, t: Tid, o: Tid)
    requires WaitInv(s) && t < |s.pc| && Touches(s, s', t, o)
    requires forall p :: 0 <= p < |s.ports| ==> s'.ports[p].queue == s.ports[p].queue
    requires s.wait[t].Queued? ==> s'.wait[t] == s.wait[t]
    requires o < |s.pc| && o != t ==> !s.wait[o].Queued?
    ensures forall p :: 0 <= p < |s'.ports| ==> QueueOk(s', p)
  {
    forall p | 0 <= p < |s'.ports|
      ensures QueueOk(s', p)
    {
      assert QueueOk(s, p);
    }
  }

  /** Thread t took the head of port p's queue. */
  lemma QueuePopped(s: State, s': State, t: Tid, p: Pid)
    requires WaitInv(s) && t < |s.pc| && p < |s.ports| && s.ports[p].queue != [] && s.wait[t].NoWait?
    requires Touches(s, s', t, s.ports[p].queue[0].thread)
    requires s'.ports[p].queue == s.ports[p].queue[1..]
    requires forall q :: 0 <= q < |s.ports| && q != p ==> s'.ports[q] == s.ports[q]
    ensures forall q :: 0 <= q < |s'.ports| ==> QueueOk(s', q)
  {
    assert QueueOk(s, p);
    var o := s.ports[p].queue[0].thread;
    forall q | 0 <= q < |s'.ports|
      ensures QueueOk(s', q)
    {
      assert QueueOk(s, q);
      if q == p {
        assert forall i :: 0 <= i < |s'.ports[p].queue| ==> s'.ports[p].queue[i] == s.ports[p].queue[i + 1];
      }
    }
  }

  lemma QueuePushed(s: State, s': State, t: Tid, p: Pid, d: Dir)
    requires WaitInv(s) && t < |s.pc| && p < |s.ports| && s.wait[t].NoWait?
    requires Touches(s, s', t, t) && s'.wait[t] == Queued(p, d)
    requires s'.ports[p].queue == s.ports[p].queue + [Request(t, d)]
    requires forall q :: 0 <= q < |s.ports| && q != p ==> s'.ports[q] == s.ports[q]
    ensures forall q :: 0 <= q < |s'.ports| ==> QueueOk(s', q)
  {
    forall q | 0 <= q < |s'.ports|
      ensures QueueOk(s', q)
    {
      assert QueueOk(s, q);
    }
  }

  /** A step that leaves every partner, queue and status alone. */
  ghost predicate Private(s: State, s': State, t: Tid)
  {
    && WellFormed(s) && t < |s.pc| && WellFormed(s') && |s'.pc| == |s.pc| && |s'.ports| == |s.ports|
    && s'.pc == s.pc[t := s'.pc[t]]
    && s'.status == s.status && s'.portPtr == s.portPtr && s'.wait == s.wait && s'.closedFlag == s.closedFlag
    && s'.abandoned == s.abandoned
    && (forall p :: 0 <= p < |s.ports| ==> s'.ports[p].queue == s.ports[p].queue)
    && (IsWaiting(s.pc[t]) <==> IsWaiting(s'.pc[t]))
    && (IsWaiting(s.pc[t]) ==> s'.pc[t].d == s.pc[t].d && s'.pc[t].p == s.pc[t].p)
    && !Holds(s.pc[t]) && !Holds(s'.pc[t]) && (IsBlock(s'.pc[t]) ==> s'.pc[t].SetBlocked?)
  }

  lemma WaitPrivate(s: State, s': State, t: Tid)
    requires WaitInv(s) && Private(s, s', t)
    ensures WaitInv(s')
  {
    forall u | 0 <= u < |s'.pc|
      ensures WaiterOk(s', u) && HolderOk(s', u)
    {
      assert WaiterOk(s, u) && HolderOk(s, u);
    }
    forall p | 0 <= p < |s'.ports|
      ensures QueueOk(s', p)
    {
      assert QueueOk(s, p);
    }
  }

  lemma ActiveFree(s: State, t: Tid)
    requires WaitInv(s) && t < |s.pc| && !IsWaiting(s.pc[t])
    ensures s.wait[t] == NoWait
  {
    assert WaiterOk(s, t);
  }

  lemma CountUpPrivate(s: State, t: Tid)
    requires WellFormed(s) && t < |s.pc| && s.pc[t].CountUp? && s.pc[t].p < |s.ports|
    ensures Private(s, GateStep(s, t, s.pc[t]), t)
  {
  }

  lemma RecheckPrivate(s: State, t: Tid)
    requires WellFormed(s) && t < |s.pc| && s.pc[t].Recheck? && s.pc[t].p < |s.ports|
    ensures Private(s, GateStep(s, t, s.pc[t]), t)
  {
  }

  lemma CountUndoPrivate(s: State, t: Tid)
    requires WellFormed(s) && t < |s.pc| && s.pc[t].CountUndo? && s.pc[t].p < |s.ports|
    ensures Private(s, GateStep(s, t, s.pc[t]), t)
  {
  }

  lemma CountDownPrivate(s: State, t: Tid)
    requires WellFormed(s) && t < |s.pc| && s.pc[t].CountDown? && s.pc[t].p < |s.ports|
    ensures Private(s, GateStep(s, t, s.pc[t]), t)
  {
  }

  lemma CountDownBlockedPrivate(s: State, t: Tid)
    requires WellFormed(s) && t < |s.pc| && s.pc[t].CountDownBlocked? && s.pc[t].p < |s.ports|
    ensures Private(s, GateStep(s, t, s.pc[t]), t)
  {
  }

  lemma WaitGate(s: State, t: Tid)
    requires WaitInv(s) && t < |s.pc| && IsGate(s.pc[t]) && s.pc[t].p < |s.ports|
    ensures WaitInv(GateStep(s, t, s.pc[t]))
  {
    match s.pc[t] {
      case CountUp(_, _) => CountUpPrivate(s, t);
      case Recheck(_, _) => RecheckPrivate(s, t);
      case CountUndo(_, _) => CountUndoPrivate(s, t);
      case CountDown(_) => CountDownPrivate(s, t);
      case CountDownBlocked(_, _) => CountDownBlockedPrivate(s, t);
    }
    WaitPrivate(s, GateStep(s, t, s.pc[t]), t);
  }

  /** Taking the head of a queue leaves the requests of others in it. */
  lemma PoppedRest(q: seq<Request>, o: Tid)
    requires q != [] && q[0].thread == o
    ensures forall r :: r in q && r.thread != o ==> r in q[1..]
  {
  }

  lemma TryMatchTouches(s: State, t: Tid, ok: bool)
    requires WellFormed(s) && t < |s.pc| && s.pc[t].TryMatch? && s.pc[t].p < |s.ports| && s.wait[t].NoWait?
    requires s.ports[s.pc[t].p].queue != [] && s.ports[s.pc[t].p].queue[0].dir == Opposite(s.pc[t].d)
    requires var o := s.ports[s.pc[t].p].queue[0].thread;
             o < |s.pc| && o != t && s.wait[o] == Queued(s.pc[t].p, Opposite(s.pc[t].d)) && WaiterOk(s, o)
    ensures var s', o := MatchStep(s, t, s.pc[t], ok), s.ports[s.pc[t].p].queue[0].thread;
            && Touches(s, s', t, o)
            && WaiterOk(s', t) && HolderOk(s', t) && WaiterOk(s', o)
            && s'.ports[s.pc[t].p].queue == s.ports[s.pc[t].p].queue[1..]
            && forall q :: 0 <= q < |s.ports| && q != s.pc[t].p ==> s'.ports[q] == s.ports[q]
  {
    PoppedRest(s.ports[s.pc[t].p].queue, s.ports[s.pc[t].p].queue[0].thread);
  }

  lemma WaitTryMatch(s: State, t: Tid, ok: bool)
    requires WaitInv(s) && t < |s.pc| && s.pc[t].TryMatch? && s.pc[t].p < |s.ports|
    ensures WaitInv(MatchStep(s, t, s.pc[t], ok))
  {
    var s' := MatchStep(s, t, s.pc[t], ok);
    var p, d := s.pc[t].p, s.pc[t].d;
    ActiveFree(s, t);
    assert QueueOk(s, p);
    if s.ports[p].queue != [] && s.ports[p].queue[0].dir == Opposite(d) {
      var o := s.ports[p].queue[0].thread;
      assert WaiterOk(s, o);
      TryMatchTouches(s, t, ok);
      QueuePopped(s, s', t, p);
      WaitKept(s, s', t, o);
    } else {
      NoMatchPrivate(s, t, ok);
      WaitPrivate(s, s', t);
    }
  }

  lemma NoMatchPrivate(s: State, t: Tid, ok: bool)
    requires WellFormed(s) && t < |s.pc| && s.pc[t].TryMatch? && s.pc[t].p < |s.ports|
    requires s.ports[s.pc[t].p].queue == [] || s.ports[s.pc[t].p].queue[0].dir != Opposite(s.pc[t].d)
    ensures Private(s, MatchStep(s, t, s.pc[t], ok), t)
  {
  }

  lemma CheckStatusTouches(s: State, t: Tid, ok: bool)
    requires WellFormed(s) && t < |s.pc| && s.pc[t].CheckStatus? && s.pc[t].o < |s.pc| && s.pc[t].o != t
    requires HolderOk(s, t) && WaiterOk(s, t) && WaiterOk(s, s.pc[t].o) && s.wait[t].NoWait?
    ensures var s' := MatchStep(s, t, s.pc[t], ok);
            && Touches(s, s', t, s.pc[t].o) && s'.ports == s.ports
            && WaiterOk(s', t) && HolderOk(s', t) && WaiterOk(s', s.pc[t].o)
  {
  }

  lemma ClearStaleTouches(s: State, t: Tid, ok: bool)
    requires WellFormed(s) && t < |s.pc| && s.pc[t].ClearStale? && s.pc[t].o < |s.pc| && s.pc[t].o != t
    requires HolderOk(s, t) && WaiterOk(s, t) && WaiterOk(s, s.pc[t].o) && s.wait[t].NoWait?
    ensures var s' := MatchStep(s, t, s.pc[t], ok);
            && Touches(s, s', t, s.pc[t].o) && s'.ports == s.ports
            && WaiterOk(s', t) && HolderOk(s', t) && WaiterOk(s', s.pc[t].o)
  {
  }

  lemma ClaimTouches(s: State, t: Tid, ok: bool)
    requires WellFormed(s) && t < |s.pc| && s.pc[t].Claim? && s.pc[t].o < |s.pc| && s.pc[t].o != t
    requires HolderOk(s, t) && WaiterOk(s, t) && WaiterOk(s, s.pc[t].o) && s.wait[t].NoWait?
    ensures var s' := MatchStep(s, t, s.pc[t], ok);
            && Touches(s, s', t, s.pc[t].o) && s'.ports == s.ports
            && WaiterOk(s', t) && HolderOk(s', t) && WaiterOk(s', s.pc[t].o)
  {
  }

  lemma MatchTouches(s: State, t: Tid, ok: bool)
    requires WellFormed(s) && t < |s.pc| && IsMatch(s.pc[t]) && !s.pc[t].TryMatch? && s.pc[t].o < |s.pc| && s.pc[t].o != t
    requires HolderOk(s, t) && WaiterOk(s, t) && WaiterOk(s, s.pc[t].o) && s.wait[t].NoWait?
    ensures var s' := MatchStep(s, t, s.pc[t], ok);
            && Touches(s, s', t, s.pc[t].o) && s'.ports == s.ports
            && WaiterOk(s', t) && HolderOk(s', t) && WaiterOk(s', s.pc[t].o)
  {
    match s.pc[t]
    case CheckStatus(_, _, _) => CheckStatusTouches(s, t, ok);
    case ClearStale(_, _, _) => ClearStaleTouches(s, t, ok);
    case Claim(_, _, _) => ClaimTouches(s, t, ok);
  }

  lemma WaitMatch(s: State, t: Tid, ok: bool)
    requires WaitInv(s) && t < |s.pc| && IsMatch(s.pc[t]) && !s.pc[t].TryMatch? && s.pc[t].p < |s.ports|
    ensures WaitInv(MatchStep(s, t, s.pc[t], ok))
  {
    var s' := MatchStep(s, t, s.pc[t], ok);
    var o := s.pc[t].o;
    ActiveFree(s, t);
    assert HolderOk(s, t) && WaiterOk(s, t) && WaiterOk(s, o);
    MatchTouches(s, t, ok);
    QueuesSame(s, s', t, o);
    WaitKept(s, s', t, o);
  }

  lemma CheckReceiverTouchesSend(s: State, t: Tid, ok: bool)
    requires WellFormed(s) && t < |s.pc| && s.pc[t].CheckReceiver? && s.pc[t].d.Send? && s.pc[t].o < |s.pc| && s.pc[t].o != t
    requires s.wait[t].NoWait? && s.wait[s.pc[t].o].Held? && s.wait[s.pc[t].o].owner == t
    ensures var s' := TakeStep(s, t, s.pc[t], ok); Touches(s, s', t, s.pc[t].o) && s'.ports == s.ports
  {
  }

  lemma CheckReceiverTouchesRecv(s: State, t: Tid, ok: bool)
    requires WellFormed(s) && t < |s.pc| && s.pc[t].CheckReceiver? && s.pc[t].d.Recv? && s.pc[t].o < |s.pc| && s.pc[t].o != t
    requires s.wait[t].NoWait? && s.wait[s.pc[t].o].Held? && s.wait[s.pc[t].o].owner == t
    ensures var s' := TakeStep(s, t, s.pc[t], ok); Touches(s, s', t, s.pc[t].o) && s'.ports == s.ports
  {
  }

  lemma CheckReceiverTouches(s: State, t: Tid, ok: bool)
    requires WellFormed(s) && t < |s.pc| && s.pc[t].CheckReceiver? && s.pc[t].o < |s.pc| && s.pc[t].o != t
    requires s.wait[t].NoWait? && s.wait[s.pc[t].o].Held? && s.wait[s.pc[t].o].owner == t
    ensures var s' := TakeStep(s, t, s.pc[t], ok); Touches(s, s', t, s.pc[t].o) && s'.ports == s.ports
  {
    if s.pc[t].d.Send? { CheckReceiverTouchesSend(s, t, ok); } else { CheckReceiverTouchesRecv(s, t, ok); }
  }

  lemma TakePendingTouches(s: State, t: Tid, ok: bool)
    requires WellFormed(s) && t < |s.pc| && s.pc[t].TakePending? && s.pc[t].o < |s.pc| && s.pc[t].o != t
    requires s.wait[t].NoWait? && s.wait[s.pc[t].o].Held? && s.wait[s.pc[t].o].owner == t
    ensures var s' := TakeStep(s, t, s.pc[t], ok); Touches(s, s', t, s.pc[t].o) && s'.ports == s.ports
  {
  }

  lemma TakeQueuedTouchesSend(s: State, t: Tid, ok: bool)
    requires WellFormed(s) && t < |s.pc| && s.pc[t].TakeQueued? && s.pc[t].d.Send? && s.pc[t].o < |s.pc| && s.pc[t].o != t
    requires s.wait[t].NoWait? && s.wait[s.pc[t].o].Held? && s.wait[s.pc[t].o].owner == t
    ensures var s' := TakeStep(s, t, s.pc[t], ok); Touches(s, s', t, s.pc[t].o) && s'.ports == s.ports
  {
  }

  lemma TakeQueuedTouchesRecv(s: State, t: Tid, ok: bool)
    requires WellFormed(s) && t < |s.pc| && s.pc[t].TakeQueued? && s.pc[t].d.Recv? && s.pc[t].o < |s.pc| && s.pc[t].o != t
    requires s.wait[t].NoWait? && s.wait[s.pc[t].o].Held? && s.wait[s.pc[t].o].owner == t
    ensures var s' := TakeStep(s, t, s.pc[t], ok); Touches(s, s', t, s.pc[t].o) && s'.ports == s.ports
  {
  }

  lemma TakeQueuedTouches(s: State, t: Tid, ok: bool)
    requires WellFormed(s) && t < |s.pc| && s.pc[t].TakeQueued? && s.pc[t].o < |s.pc| && s.pc[t].o != t
    requires s.wait[t].NoWait? && s.wait[s.pc[t].o].Held? && s.wait[s.pc[t].o].owner == t
    ensures var s' := TakeStep(s, t, s.pc[t], ok); Touches(s, s', t, s.pc[t].o) && s'.ports == s.ports
  {
    if s.pc[t].d.Send? { TakeQueuedTouchesSend(s, t, ok); } else { TakeQueuedTouchesRecv(s, t, ok); }
  }

  lemma CheckSenderTouchesSend(s: State, t: Tid, ok: bool)
    requires WellFormed(s) && t < |s.pc| && s.pc[t].CheckSender? && s.pc[t].d.Send? && s.pc[t].o < |s.pc| && s.pc[t].o != t
    requires s.wait[t].NoWait? && s.wait[s.pc[t].o].Held? && s.wait[s.pc[t].o].owner == t
    ensures var s' := TakeStep(s, t, s.pc[t], ok); Touches(s, s', t, s.pc[t].o) && s'.ports == s.ports
  {
  }

  lemma CheckSenderTouchesRecv(s: State, t: Tid, ok: bool)
    requires WellFormed(s) && t < |s.pc| && s.pc[t].CheckSender? && s.pc[t].d.Recv? && s.pc[t].o < |s.pc| && s.pc[t].o != t
    requires s.wait[t].NoWait? && s.wait[s.pc[t].o].Held? && s.wait[s.pc[t].o].owner == t
    ensures var s' := TakeStep(s, t, s.pc[t], ok); Touches(s, s', t, s.pc[t].o) && s'.ports == s.ports
  {
  }

  lemma CheckSenderTouches(s: State, t: Tid, ok: bool)
    requires WellFormed(s) && t < |s.pc| && s.pc[t].CheckSender? && s.pc[t].o < |s.pc| && s.pc[t].o != t
    requires s.wait[t].NoWait? && s.wait[s.pc[t].o].Held? && s.wait[s.pc[t].o].owner == t
    ensures var s' := TakeStep(s, t, s.pc[t], ok); Touches(s, s', t, s.pc[t].o) && s'.ports == s.ports
  {
    if s.pc[t].d.Send? { CheckSenderTouchesSend(s, t, ok); } else { CheckSenderTouchesRecv(s, t, ok); }
  }

  lemma TakeTouches(s: State, t: Tid, ok: bool)
    requires WellFormed(s) && t < |s.pc| && IsTake(s.pc[t]) && s.pc[t].o < |s.pc| && s.pc[t].o != t
    requires s.wait[t].NoWait? && s.wait[s.pc[t].o].Held? && s.wait[s.pc[t].o].owner == t
    ensures var s' := TakeStep(s, t, s.pc[t], ok); Touches(s, s', t, s.pc[t].o) && s'.ports == s.ports
  {
    match s.pc[t]
    case CheckReceiver(_, _, _) => CheckReceiverTouches(s, t, ok);
    case TakePending(_, _, _) => TakePendingTouches(s, t, ok);
    case TakeQueued(_, _, _) => TakeQueuedTouches(s, t, ok);
    case CheckSender(_, _, _, _) => CheckSenderTouches(s, t, ok);
  }

  lemma CheckReceiverWaitersSend(s: State, t: Tid, ok: bool)
    requires WellFormed(s) && t < |s.pc| && s.pc[t].CheckReceiver? && s.pc[t].d.Send? && s.pc[t].o < |s.pc| && s.pc[t].o != t
    requires HolderOk(s, t) && WaiterOk(s, t) && WaiterOk(s, s.pc[t].o)
    ensures var s' := TakeStep(s, t, s.pc[t], ok);
            && WellFormed(s') && |s'.pc| == |s.pc|
            && WaiterOk(s', t) && HolderOk(s', t) && WaiterOk(s', s.pc[t].o)
  {
  }

  lemma CheckReceiverWaitersRecv(s: State, t: Tid, ok: bool)
    requires WellFormed(s) && t < |s.pc| && s.pc[t].CheckReceiver? && s.pc[t].d.Recv? && s.pc[t].o < |s.pc| && s.pc[t].o != t
    requires HolderOk(s, t) && WaiterOk(s, t) && WaiterOk(s, s.pc[t].o)
    ensures var s' := TakeStep(s, t, s.pc[t], ok);
            && WellFormed(s') && |s'.pc| == |s.pc|
            && WaiterOk(s', t) && HolderOk(s', t) && WaiterOk(s', s.pc[t].o)
  {
  }

  lemma CheckReceiverWaiters(s: State, t: Tid, ok: bool)
    requires WellFormed(s) && t < |s.pc| && s.pc[t].CheckReceiver? && s.pc[t].o < |s.pc| && s.pc[t].o != t
    requires HolderOk(s, t) && WaiterOk(s, t) && WaiterOk(s, s.pc[t].o)
    ensures var s' := TakeStep(s, t, s.pc[t], ok);
            && WellFormed(s') && |s'.pc| == |s.pc|
            && WaiterOk(s', t) && HolderOk(s', t) && WaiterOk(s', s.pc[t].o)
  {
    if s.pc[t].d.Send? { CheckReceiverWaitersSend(s, t, ok); } else { CheckReceiverWaitersRecv(s, t, ok); }
  }

  lemma TakePendingWaiters(s: State, t: Tid, ok: bool)
    requires WellFormed(s) && t < |s.pc| && s.pc[t].TakePending? && s.pc[t].o < |s.pc| && s.pc[t].o != t
    requires HolderOk(s, t) && WaiterOk(s, t) && WaiterOk(s, s.pc[t].o)
    ensures var s' := TakeStep(s, t, s.pc[t], ok);
            && WellFormed(s') && |s'.pc| == |s.pc|
            && WaiterOk(s', t) && HolderOk(s', t) && WaiterOk(s', s.pc[t].o)
  {
  }

  lemma TakeQueuedWaitersSend(s: State, t: Tid, ok: bool)
    requires WellFormed(s) && t < |s.pc| && s.pc[t].TakeQueued? && s.pc[t].d.Send? && s.pc[t].o < |s.pc| && s.pc[t].o != t
    requires HolderOk(s, t) && WaiterOk(s, t) && WaiterOk(s, s.pc[t].o)
    ensures var s' := TakeStep(s, t, s.pc[t], ok);
            && WellFormed(s') && |s'.pc| == |s.pc|
            && WaiterOk(s', t) && HolderOk(s', t) && WaiterOk(s', s.pc[t].o)
  {
  }

  lemma TakeQueuedWaitersRecv(s: State, t: Tid, ok: bool)
    requires WellFormed(s) && t < |s.pc| && s.pc[t].TakeQueued? && s.pc[t].d.Recv? && s.pc[t].o < |s.pc| && s.pc[t].o != t
    requires HolderOk(s, t) && WaiterOk(s, t) && WaiterOk(s, s.pc[t].o)
    ensures var s' := TakeStep(s, t, s.pc[t], ok);
            && WellFormed(s') && |s'.pc| == |s.pc|
            && WaiterOk(s', t) && HolderOk(s', t) && WaiterOk(s', s.pc[t].o)
  {
  }

  lemma TakeQueuedWaiters(s: State, t: Tid, ok: bool)
    requires WellFormed(s) && t < |s.pc| && s.pc[t].TakeQueued? && s.pc[t].o < |s.pc| && s.pc[t].o != t
    requires HolderOk(s, t) && WaiterOk(s, t) && WaiterOk(s, s.pc[t].o)
    ensures var s' := TakeStep(s, t, s.pc[t], ok);
            && WellFormed(s') && |s'.pc| == |s.pc|
            && WaiterOk(s', t) && HolderOk(s', t) && WaiterOk(s', s.pc[t].o)
  {
    if s.pc[t].d.Send? { TakeQueuedWaitersSend(s, t, ok); } else { TakeQueuedWaitersRecv(s, t, ok); }
  }

  lemma CheckSenderWaitersSend(s: State, t: Tid, ok: bool)
    requires WellFormed(s) && t < |s.pc| && s.pc[t].CheckSender? && s.pc[t].d.Send? && s.pc[t].o < |s.pc| && s.pc[t].o != t
    requires HolderOk(s, t) && WaiterOk(s, t) && WaiterOk(s, s.pc[t].o)
    ensures var s' := TakeStep(s, t, s.pc[t], ok);
            && WellFormed(s') && |s'.pc| == |s.pc|
            && WaiterOk(s', t) && HolderOk(s', t) && WaiterOk(s', s.pc[t].o)
  {
  }

  lemma CheckSenderWaitersRecv(s: State, t: Tid, ok: bool)
    requires WellFormed(s) && t < |s.pc| && s.pc[t].CheckSender? && s.pc[t].d.Recv? && s.pc[t].o < |s.pc| && s.pc[t].o != t
    requires HolderOk(s, t) && WaiterOk(s, t) && WaiterOk(s, s.pc[t].o)
    ensures var s' := TakeStep(s, t, s.pc[t], ok);
            && WellFormed(s') && |s'.pc| == |s.pc|
            && WaiterOk(s', t) && HolderOk(s', t) && WaiterOk(s', s.pc[t].o)
  {
  }

  lemma CheckSenderWaiters(s: State, t: Tid, ok: bool)
    requires WellFormed(s) && t < |s.pc| && s.pc[t].CheckSender? && s.pc[t].o < |s.pc| && s.pc[t].o != t
    requires HolderOk(s, t) && WaiterOk(s, t) && WaiterOk(s, s.pc[t].o)
    ensures var s' := TakeStep(s, t, s.pc[t], ok);
            && WellFormed(s') && |s'.pc| == |s.pc|
            && WaiterOk(s', t) && HolderOk(s', t) && WaiterOk(s', s.pc[t].o)
  {
    if s.pc[t].d.Send? { CheckSenderWaitersSend(s, t, ok); } else { CheckSenderWaitersRecv(s, t, ok); }
  }

  /** The parts of a transfer step, as far as waiting goes. */
  lemma TakeParts(s: State, t: Tid, ok: bool)
    requires WellFormed(s) && t < |s.pc| && IsTake(s.pc[t]) && s.pc[t].o < |s.pc| && s.pc[t].o != t && s.wait[t].NoWait?
    requires HolderOk(s, t) && WaiterOk(s, t) && WaiterOk(s, s.pc[t].o)
    ensures var s' := TakeStep(s, t, s.pc[t], ok);
            && Touches(s, s', t, s.pc[t].o) && s'.ports == s.ports && WellFormed(s') && |s'.pc| == |s.pc|
            && WaiterOk(s', t) && HolderOk(s', t) && WaiterOk(s', s.pc[t].o)
  {
    TakeTouches(s, t, ok);
    match s.pc[t] {
      case CheckReceiver(_, _, _) => CheckReceiverWaiters(s, t, ok);
      case TakePending(_, _, _) => TakePendingWaiters(s, t, ok);
      case TakeQueued(_, _, _) => TakeQueuedWaiters(s, t, ok);
      case CheckSender(_, _, _, _) => CheckSenderWaiters(s, t, ok);
    }
  }

  lemma HeldPartner(s: State, t: Tid)
    requires WaitInv(s) && t < |s.pc| && Holds(s.pc[t]) && !IsWaiting(s.pc[t])
    ensures s.pc[t].o < |s.pc| && s.pc[t].o != t && s.wait[t].NoWait? && s.wait[s.pc[t].o].Held?
    ensures HolderOk(s, t) && WaiterOk(s, t) && WaiterOk(s, s.pc[t].o)
  {
    ActiveFree(s, t);
    assert HolderOk(s, t) && WaiterOk(s, t);
  }

  lemma WaitTake(s: State, t: Tid, ok: bool)
    requires WaitInv(s) && t < |s.pc| && IsTake(s.pc[t])
    ensures WaitInv(TakeStep(s, t, s.pc[t], ok))
  {
    HeldPartner(s, t);
    TakeParts(s, t, ok);
    PartnerKept(s, TakeStep(s, t, s.pc[t], ok), t);
  }

  /** A step of a thread that holds a partner's request, with its queues as before. */
  lemma PartnerKept(s: State, s': State, t: Tid)
    requires WaitInv(s) && t < |s.pc| && Holds(s.pc[t]) && s.pc[t].o < |s.pc| && s.pc[t].o != t && s.wait[t].NoWait? && s.wait[s.pc[t].o].Held?
    requires Touches(s, s', t, s.pc[t].o) && s'.ports == s.ports
    requires WaiterOk(s', t) && HolderOk(s', t) && WaiterOk(s', s.pc[t].o)
    ensures WaitInv(s')
  {
    QueuesSame(s, s', t, s.pc[t].o);
    WaitKept(s, s', t, s.pc[t].o);
  }

  lemma DeliverTouches(s: State, t: Tid, ok: bool)
    requires WellFormed(s) && t < |s.pc| && s.pc[t].Deliver? && s.pc[t].o < |s.pc| && s.pc[t].o != t
    requires s.wait[t].NoWait? && s.wait[s.pc[t].o].Held? && s.wait[s.pc[t].o].owner == t
    ensures var s' := GiveStep(s, t, s.pc[t], ok); Touches(s, s', t, s.pc[t].o) && s'.ports == s.ports
  {
  }

  lemma RecheckReceiverTouches(s: State, t: Tid, ok: bool)
    requires WellFormed(s) && t < |s.pc| && s.pc[t].RecheckReceiver? && s.pc[t].o < |s.pc| && s.pc[t].o != t
    requires s.wait[t].NoWait? && s.wait[s.pc[t].o].Held? && s.wait[s.pc[t].o].owner == t
    ensures var s' := GiveStep(s, t, s.pc[t], ok); Touches(s, s', t, s.pc[t].o) && s'.ports == s.ports
  {
  }

  lemma HandOverTouches(s: State, t: Tid, ok: bool)
    requires WellFormed(s) && t < |s.pc| && IsHandOver(s.pc[t]) && s.pc[t].o < |s.pc| && s.pc[t].o != t
    requires s.wait[t].NoWait? && s.wait[s.pc[t].o].Held? && s.wait[s.pc[t].o].owner == t
    ensures var s' := GiveStep(s, t, s.pc[t], ok); Touches(s, s', t, s.pc[t].o) && s'.ports == s.ports
  {
    match s.pc[t]
    case Deliver(_, _, _, _) => DeliverTouches(s, t, ok);
    case RecheckReceiver(_, _, _, _) => RecheckReceiverTouches(s, t, ok);
  }

  lemma PutBackTouchesSend(s: State, t: Tid, ok: bool)
    requires WellFormed(s) && t < |s.pc| && s.pc[t].PutBack? && s.pc[t].d.Send? && s.pc[t].o < |s.pc| && s.pc[t].o != t
    requires s.wait[t].NoWait? && s.wait[s.pc[t].o].Held? && s.wait[s.pc[t].o].owner == t
    ensures var s' := GiveStep(s, t, s.pc[t], ok); Touches(s, s', t, s.pc[t].o) && s'.ports == s.ports
  {
  }

  lemma PutBackTouchesRecv(s: State, t: Tid, ok: bool)
    requires WellFormed(s) && t < |s.pc| && s.pc[t].PutBack? && s.pc[t].d.Recv? && s.pc[t].o < |s.pc| && s.pc[t].o != t
    requires s.wait[t].NoWait? && s.wait[s.pc[t].o].Held? && s.wait[s.pc[t].o].owner == t
    ensures var s' := GiveStep(s, t, s.pc[t], ok); Touches(s, s', t, s.pc[t].o) && s'.ports == s.ports
  {
  }

  lemma PutBackTouches(s: State, t: Tid, ok: bool)
    requires WellFormed(s) && t < |s.pc| && s.pc[t].PutBack? && s.pc[t].o < |s.pc| && s.pc[t].o != t
    requires s.wait[t].NoWait? && s.wait[s.pc[t].o].Held? && s.wait[s.pc[t].o].owner == t
    ensures var s' := GiveStep(s, t, s.pc[t], ok); Touches(s, s', t, s.pc[t].o) && s'.ports == s.ports
  {
    if s.pc[t].d.Send? { PutBackTouchesSend(s, t, ok); } else { PutBackTouchesRecv(s, t, ok); }
  }

  lemma WakeTouches(s: State, t: Tid, ok: bool)
    requires WellFormed(s) && t < |s.pc| && s.pc[t].Wake? && s.pc[t].o < |s.pc| && s.pc[t].o != t
    requires s.wait[t].NoWait? && s.wait[s.pc[t].o].Held? && s.wait[s.pc[t].o].owner == t
    ensures var s' := GiveStep(s, t, s.pc[t], ok); Touches(s, s', t, s.pc[t].o) && s'.ports == s.ports
  {
  }

  lemma SettleTouches(s: State, t: Tid, ok: bool)
    requires WellFormed(s) && t < |s.pc| && IsSettle(s.pc[t]) && s.pc[t].o < |s.pc| && s.pc[t].o != t
    requires s.wait[t].NoWait? && s.wait[s.pc[t].o].Held? && s.wait[s.pc[t].o].owner == t
    ensures var s' := GiveStep(s, t, s.pc[t], ok); Touches(s, s', t, s.pc[t].o) && s'.ports == s.ports
  {
    match s.pc[t]
    case PutBack(_, _, _, _) => PutBackTouches(s, t, ok);
    case Wake(_, _, _) => WakeTouches(s, t, ok);
  }

  lemma DeliverWaitersSend(s: State, t: Tid, ok: bool)
    requires WellFormed(s) && t < |s.pc| && s.pc[t].Deliver? && s.pc[t].d.Send? && s.pc[t].o < |s.pc| && s.pc[t].o != t
    requires HolderOk(s, t) && WaiterOk(s, t) && WaiterOk(s, s.pc[t].o)
    ensures var s' := GiveStep(s, t, s.pc[t], ok);
            && WellFormed(s') && |s'.pc| == |s.pc|
            && WaiterOk(s', t) && HolderOk(s', t) && WaiterOk(s', s.pc[t].o)
  {
  }

  lemma DeliverWaitersRecv(s: State, t: Tid, ok: bool)
    requires WellFormed(s) && t < |s.pc| && s.pc[t].Deliver? && s.pc[t].d.Recv? && s.pc[t].o < |s.pc| && s.pc[t].o != t
    requires HolderOk(s, t) && WaiterOk(s, t) && WaiterOk(s, s.pc[t].o)
    ensures var s' := GiveStep(s, t, s.pc[t], ok);
            && WellFormed(s') && |s'.pc| == |s.pc|
            && WaiterOk(s', t) && HolderOk(s', t) && WaiterOk(s', s.pc[t].o)
  {
  }

  lemma DeliverWaiters(s: State, t: Tid, ok: bool)
    requires WellFormed(s) && t < |s.pc| && s.pc[t].Deliver? && s.pc[t].o < |s.pc| && s.pc[t].o != t
    requires HolderOk(s, t) && WaiterOk(s, t) && WaiterOk(s, s.pc[t].o)
    ensures var s' := GiveStep(s, t, s.pc[t], ok);
            && WellFormed(s') && |s'.pc| == |s.pc|
            && WaiterOk(s', t) && HolderOk(s', t) && WaiterOk(s', s.pc[t].o)
  {
    if s.pc[t].d.Send? { DeliverWaitersSend(s, t, ok); } else { DeliverWaitersRecv(s, t, ok); }
  }

  lemma RecheckReceiverWaiters(s: State, t: Tid, ok: bool)
    requires WellFormed(s) && t < |s.pc| && s.pc[t].RecheckReceiver? && s.pc[t].o < |s.pc| && s.pc[t].o != t
    requires HolderOk(s, t) && WaiterOk(s, t) && WaiterOk(s, s.pc[t].o)
    ensures var s' := GiveStep(s, t, s.pc[t], ok);
            && WellFormed(s') && |s'.pc| == |s.pc|
            && WaiterOk(s', t) && HolderOk(s', t) && WaiterOk(s', s.pc[t].o)
  {
  }

  lemma PutBackWaitersSend(s: State, t: Tid, ok: bool)
    requires WellFormed(s) && t < |s.pc| && s.pc[t].PutBack? && s.pc[t].d.Send? && s.pc[t].o < |s.pc| && s.pc[t].o != t
    requires HolderOk(s, t) && WaiterOk(s, t) && WaiterOk(s, s.pc[t].o)
    ensures var s' := GiveStep(s, t, s.pc[t], ok);
            && WellFormed(s') && |s'.pc| == |s.pc|
            && WaiterOk(s', t) && HolderOk(s', t) && WaiterOk(s', s.pc[t].o)
  {
  }

  lemma PutBackWaitersRecv(s: State, t: Tid, ok: bool)
    requires WellFormed(s) && t < |s.pc| && s.pc[t].PutBack? && s.pc[t].d.Recv? && s.pc[t].o < |s.pc| && s.pc[t].o != t
    requires HolderOk(s, t) && WaiterOk(s, t) && WaiterOk(s, s.pc[t].o)
    ensures var s' := GiveStep(s, t, s.pc[t], ok);
            && WellFormed(s') && |s'.pc| == |s.pc|
            && WaiterOk(s', t) && HolderOk(s', t) && WaiterOk(s', s.pc[t].o)
  {
  }

  lemma PutBackWaiters(s: State, t: Tid, ok: bool)
    requires WellFormed(s) && t < |s.pc| && s.pc[t].PutBack? && s.pc[t].o < |s.pc| && s.pc[t].o != t
    requires HolderOk(s, t) && WaiterOk(s, t) && WaiterOk(s, s.pc[t].o)
    ensures var s' := GiveStep(s, t, s.pc[t], ok);
            && WellFormed(s') && |s'.pc| == |s.pc|
            && WaiterOk(s', t) && HolderOk(s', t) && WaiterOk(s', s.pc[t].o)
  {
    if s.pc[t].d.Send? { PutBackWaitersSend(s, t, ok); } else { PutBackWaitersRecv(s, t, ok); }
  }

  lemma WakeWaiters(s: State, t: Tid, ok: bool)
    requires WellFormed(s) && t < |s.pc| && s.pc[t].Wake? && s.pc[t].o < |s.pc| && s.pc[t].o != t
    requires HolderOk(s, t) && WaiterOk(s, t) && WaiterOk(s, s.pc[t].o)
    ensures var s' := GiveStep(s, t, s.pc[t], ok);
            && WellFormed(s') && |s'.pc| == |s.pc|
            && WaiterOk(s', t) && HolderOk(s', t) && WaiterOk(s', s.pc[t].o)
  {
  }

  lemma GiveParts(s: State, t: Tid, ok: bool)
    requires WellFormed(s) && t < |s.pc| && IsGive(s.pc[t]) && s.pc[t].o < |s.pc| && s.pc[t].o != t && s.wait[t].NoWait?
    requires HolderOk(s, t) && WaiterOk(s, t) && WaiterOk(s, s.pc[t].o)
    ensures var s' := GiveStep(s, t, s.pc[t], ok);
            && Touches(s, s', t, s.pc[t].o) && s'.ports == s.ports && WellFormed(s') && |s'.pc| == |s.pc|
            && WaiterOk(s', t) && HolderOk(s', t) && WaiterOk(s', s.pc[t].o)
  {
    if IsHandOver(s.pc[t]) { HandOverTouches(s, t, ok); } else { SettleTouches(s, t, ok); }
    match s.pc[t] {
      case PutBack(_, _, _, _) => PutBackWaiters(s, t, ok);
      case Wake(_, _, _) => WakeWaiters(s, t, ok);
      case Deliver(_, _, _, _) => DeliverWaiters(s, t, ok);
      case RecheckReceiver(_, _, _, _) => RecheckReceiverWaiters(s, t, ok);
    }
  }

  lemma WaitGive(s: State, t: Tid, ok: bool)
    requires WaitInv(s) && t < |s.pc| && IsGive(s.pc[t])
    ensures WaitInv(GiveStep(s, t, s.pc[t], ok))
  {
    HeldPartner(s, t);
    GiveParts(s, t, ok);
    PartnerKept(s, GiveStep(s, t, s.pc[t], ok), t);
  }

  lemma SetBlockedTouches(s: State, t: Tid, ok: bool)
    requires WellFormed(s) && t < |s.pc| && s.pc[t].SetBlocked? && s.pc[t].p < |s.ports| && s.wait[t].NoWait?
    ensures Touches(s, BlockStep(s, t, s.pc[t], ok), t, t)
  {
  }

  lemma ReadTailTouches(s: State, t: Tid, ok: bool)
    requires WellFormed(s) && t < |s.pc| && s.pc[t].ReadTail? && s.pc[t].p < |s.ports| && s.wait[t].NoWait?
    ensures Touches(s, BlockStep(s, t, s.pc[t], ok), t, t)
  {
  }

  lemma SetPortPtrTouches(s: State, t: Tid, ok: bool)
    requires WellFormed(s) && t < |s.pc| && s.pc[t].SetPortPtr? && s.pc[t].p < |s.ports| && s.wait[t].NoWait?
    ensures Touches(s, BlockStep(s, t, s.pc[t], ok), t, t)
  {
  }

  lemma EnqueueTouches(s: State, t: Tid, ok: bool)
    requires WellFormed(s) && t < |s.pc| && s.pc[t].Enqueue? && s.pc[t].p < |s.ports| && s.wait[t].NoWait?
    ensures Touches(s, BlockStep(s, t, s.pc[t], ok), t, t)
  {
  }

  lemma UnblockTouches(s: State, t: Tid, ok: bool)
    requires WellFormed(s) && t < |s.pc| && s.pc[t].Unblock? && s.pc[t].p < |s.ports| && s.wait[t].NoWait?
    ensures Touches(s, BlockStep(s, t, s.pc[t], ok), t, t)
  {
  }

  lemma BlockTouches(s: State, t: Tid, ok: bool)
    requires WellFormed(s) && t < |s.pc| && IsBlock(s.pc[t]) && s.pc[t].p < |s.ports| && s.wait[t].NoWait?
    ensures Touches(s, BlockStep(s, t, s.pc[t], ok), t, t)
  {
    match s.pc[t]
    case SetBlocked(_, _) => SetBlockedTouches(s, t, ok);
    case ReadTail(_, _, _) => ReadTailTouches(s, t, ok);
    case SetPortPtr(_, _, _, _) => SetPortPtrTouches(s, t, ok);
    case Enqueue(_, _, _, _) => EnqueueTouches(s, t, ok);
    case Unblock(_, _, _, _) => UnblockTouches(s, t, ok);
  }

  lemma SetBlockedWaiters(s: State, t: Tid, ok: bool)
    requires WellFormed(s) && t < |s.pc| && s.pc[t].SetBlocked?
    requires HolderOk(s, t) && WaiterOk(s, t) && s.wait[t].NoWait?
    ensures var s' := BlockStep(s, t, s.pc[t], ok);
            && WellFormed(s') && |s'.pc| == |s.pc| && s'.ports == s.ports && s'.wait == s.wait
            && WaiterOk(s', t) && HolderOk(s', t)
  {
  }

  lemma ReadTailWaiters(s: State, t: Tid, ok: bool)
    requires WellFormed(s) && t < |s.pc| && s.pc[t].ReadTail?
    requires HolderOk(s, t) && WaiterOk(s, t) && s.wait[t].NoWait?
    ensures var s' := BlockStep(s, t, s.pc[t], ok);
            && WellFormed(s') && |s'.pc| == |s.pc| && s'.ports == s.ports && s'.wait == s.wait
            && WaiterOk(s', t) && HolderOk(s', t)
  {
  }

  lemma SetPortPtrWaiters(s: State, t: Tid, ok: bool)
    requires WellFormed(s) && t < |s.pc| && s.pc[t].SetPortPtr?
    requires HolderOk(s, t) && WaiterOk(s, t) && s.wait[t].NoWait?
    ensures var s' := BlockStep(s, t, s.pc[t], ok);
            && WellFormed(s') && |s'.pc| == |s.pc| && s'.ports == s.ports && s'.wait == s.wait
            && WaiterOk(s', t) && HolderOk(s', t)
  {
  }

  lemma UnblockWaiters(s: State, t: Tid, ok: bool)
    requires WellFormed(s) && t < |s.pc| && s.pc[t].Unblock?
    requires HolderOk(s, t) && WaiterOk(s, t) && s.wait[t].NoWait?
    ensures var s' := BlockStep(s, t, s.pc[t], ok);
            && WellFormed(s') && |s'.pc| == |s.pc| && s'.ports == s.ports && s'.wait == s.wait
            && WaiterOk(s', t) && HolderOk(s', t)
  {
  }

  lemma BlockWaiters(s: State, t: Tid, ok: bool)
    requires WellFormed(s) && t < |s.pc| && IsBlock(s.pc[t]) && !s.pc[t].Enqueue?
    requires HolderOk(s, t) && WaiterOk(s, t) && s.wait[t].NoWait?
    ensures var s' := BlockStep(s, t, s.pc[t], ok);
            && WellFormed(s') && |s'.pc| == |s.pc| && s'.ports == s.ports && s'.wait == s.wait
            && WaiterOk(s', t) && HolderOk(s', t)
  {
    match s.pc[t]
    case SetBlocked(_, _) => SetBlockedWaiters(s, t, ok);
    case ReadTail(_, _, _) => ReadTailWaiters(s, t, ok);
    case SetPortPtr(_, _, _, _) => SetPortPtrWaiters(s, t, ok);
    case Unblock(_, _, _, _) => UnblockWaiters(s, t, ok);
  }

  lemma EnqueueWaiters(s: State, t: Tid, ok: bool)
    requires WellFormed(s) && t < |s.pc| && s.pc[t].Enqueue? && s.pc[t].p < |s.ports|
    requires HolderOk(s, t) && WaiterOk(s, t) && s.wait[t].NoWait?
    ensures var s', p, d := BlockStep(s, t, s.pc[t], ok), s.pc[t].p, s.pc[t].d;
            && WellFormed(s') && |s'.pc| == |s.pc| && |s'.ports| == |s.ports|
            && WaiterOk(s', t) && HolderOk(s', t)
            && ((s'.ports == s.ports && s'.wait == s.wait)
                || (&& s'.wait[t] == Queued(p, d)
                    && s'.ports == s.ports[p := s.ports[p].(queue := s.ports[p].queue + [Request(t, d)])]))
  {
  }

  lemma WaitBlock(s: State, t: Tid, ok: bool)
    requires WaitInv(s) && t < |s.pc| && IsBlock(s.pc[t]) && s.pc[t].p < |s.ports|
    ensures WaitInv(BlockStep(s, t, s.pc[t], ok))
  {
    var s' := BlockStep(s, t, s.pc[t], ok);
    ActiveFree(s, t);
    assert HolderOk(s, t) && WaiterOk(s, t);
    BlockTouches(s, t, ok);
    if s.pc[t].Enqueue? { EnqueueWaiters(s, t, ok); } else { BlockWaiters(s, t, ok); }
    if s'.ports == s.ports && s'.wait == s.wait {
      QueuesSame(s, s', t, t);
    } else {
      QueuePushed(s, s', t, s.pc[t].p, s.pc[t].d);
    }
    WaitKept(s, s', t, t);
  }

  lemma WokenTouches(s: State, t: Tid)
    requires WellFormed(s) && t < |s.pc| && s.pc[t].Woken? && s.wait[t].NoWait? && HolderOk(s, t) && WaiterOk(s, t)
    ensures var s' := OrphanStep(s, t, s.pc[t]); Touches(s, s', t, t) && s'.ports == s.ports && HolderOk(s', t) && WaiterOk(s', t)
  {
  }

  lemma OrphanPendingTouches(s: State, t: Tid)
    requires WellFormed(s) && t < |s.pc| && s.pc[t].OrphanPending?
    requires s.wait[t].NoWait? && HolderOk(s, t) && WaiterOk(s, t)
    ensures var s' := OrphanStep(s, t, s.pc[t]); Touches(s, s', t, t) && s'.ports == s.ports && HolderOk(s', t) && WaiterOk(s', t)
  {
  }

  lemma OrphanQueuedTouches(s: State, t: Tid)
    requires WellFormed(s) && t < |s.pc| && s.pc[t].OrphanQueued?
    requires s.wait[t].NoWait? && HolderOk(s, t) && WaiterOk(s, t)
    ensures var s' := OrphanStep(s, t, s.pc[t]); Touches(s, s', t, t) && s'.ports == s.ports && HolderOk(s', t) && WaiterOk(s', t)
  {
  }

  lemma PurgeTouches(s: State, t: Tid)
    requires WellFormed(s) && t < |s.pc| && (s.pc[t].OrphanPending? || s.pc[t].OrphanQueued?)
    requires s.wait[t].NoWait? && HolderOk(s, t) && WaiterOk(s, t)
    ensures var s' := OrphanStep(s, t, s.pc[t]); Touches(s, s', t, t) && s'.ports == s.ports && HolderOk(s', t) && WaiterOk(s', t)
  {
    match s.pc[t]
    case OrphanPending => OrphanPendingTouches(s, t);
    case OrphanQueued => OrphanQueuedTouches(s, t);
  }

  lemma WaitOrphan(s: State, t: Tid)
    requires WaitInv(s) && t < |s.pc| && IsOrphan(s.pc[t])
    ensures WaitInv(OrphanStep(s, t, s.pc[t]))
  {
    var s' := OrphanStep(s, t, s.pc[t]);
    ActiveFree(s, t);
    assert HolderOk(s, t) && WaiterOk(s, t);
    if s.pc[t].Woken? { WokenTouches(s, t); } else { PurgeTouches(s, t); }
    QueuesSame(s, s', t, t);
    WaitKept(s, s', t, t);
  }

  lemma WaitCleanNext(s: State, t: Tid)
    requires WaitInv(s) && t < |s.pc| && s.pc[t].CleanNext? && s.pc[t].p < |s.ports|
    ensures WaitInv(CloseStep(s, t, s.pc[t]))
  {
    ActiveFree(s, t);
    if s.ports[s.pc[t].p].queue != [] {
      WaitCleanPop(s, t, s.pc[t].p);
    } else {
      WaitPrivate(s, CloseStep(s, t, s.pc[t]), t);
    }
  }

  lemma CleanPopTouches(s: State, t: Tid, p: Pid)
    requires WellFormed(s) && t < |s.pc| && s.pc[t].CleanNext? && s.pc[t].p == p < |s.ports| && s.ports[p].queue != [] && s.wait[t] == NoWait
    requires var r := s.ports[p].queue[0];
             r.thread < |s.pc| && r.thread != t && s.wait[r.thread] == Queued(p, r.dir) && WaiterOk(s, r.thread)
    ensures var s', o := CloseStep(s, t, s.pc[t]), s.ports[p].queue[0].thread;
            && Touches(s, s', t, o) && WaiterOk(s', t) && HolderOk(s', t) && WaiterOk(s', o)
            && s'.ports[p].queue == s.ports[p].queue[1..] && forall q :: 0 <= q < |s.ports| && q != p ==> s'.ports[q] == s.ports[q]
  {
    PoppedRest(s.ports[p].queue, s.ports[p].queue[0].thread);
  }

  lemma WaitCleanPop(s: State, t: Tid, p: Pid)
    requires WaitInv(s) && t < |s.pc| && s.pc[t].CleanNext? && s.pc[t].p == p < |s.ports| && s.ports[p].queue != [] && s.wait[t] == NoWait
    ensures WaitInv(CloseStep(s, t, s.pc[t]))
  {
    assert QueueOk(s, p);
    var o := s.ports[p].queue[0].thread;
    assert WaiterOk(s, o);
    CleanPopTouches(s, t, p);
    QueuePopped(s, CloseStep(s, t, s.pc[t]), t, p);
    WaitKept(s, CloseStep(s, t, s.pc[t]), t, o);
  }

  lemma CleanStatusTouches(s: State, t: Tid)
    requires WellFormed(s) && t < |s.pc|
    requires s.pc[t].CleanStatus?
    requires s.pc[t].o < |s.pc| && s.pc[t].o != t
    requires s.wait[t].NoWait? && s.wait[s.pc[t].o].Held? && s.wait[s.pc[t].o].owner == t
    ensures var s' := CloseStep(s, t, s.pc[t]); Touches(s, s', t, s.pc[t].o) && s'.ports == s.ports
  {
  }

  lemma CleanPortPtrTouches(s: State, t: Tid)
    requires WellFormed(s) && t < |s.pc|
    requires s.pc[t].CleanPortPtr?
    requires s.pc[t].o < |s.pc| && s.pc[t].o != t
    requires s.wait[t].NoWait? && s.wait[s.pc[t].o].Held? && s.wait[s.pc[t].o].owner == t
    ensures var s' := CloseStep(s, t, s.pc[t]); Touches(s, s', t, s.pc[t].o) && s'.ports == s.ports
  {
  }

  lemma CleanFlagTouches(s: State, t: Tid)
    requires WellFormed(s) && t < |s.pc|
    requires s.pc[t].CleanFlag?
    requires s.pc[t].o < |s.pc| && s.pc[t].o != t
    requires s.wait[t].NoWait? && s.wait[s.pc[t].o].Held? && s.wait[s.pc[t].o].owner == t
    ensures var s' := CloseStep(s, t, s.pc[t]); Touches(s, s', t, s.pc[t].o) && s'.ports == s.ports
  {
  }

  lemma CleanReadyTouches(s: State, t: Tid)
    requires WellFormed(s) && t < |s.pc|
    requires s.pc[t].CleanReady?
    requires s.pc[t].o < |s.pc| && s.pc[t].o != t
    requires s.wait[t].NoWait? && s.wait[s.pc[t].o].Held? && s.wait[s.pc[t].o].owner == t
    ensures var s' := CloseStep(s, t, s.pc[t]); Touches(s, s', t, s.pc[t].o) && s'.ports == s.ports
  {
  }

  lemma CleanTouches(s: State, t: Tid)
    requires WellFormed(s) && t < |s.pc|
    requires s.pc[t].CleanStatus? || s.pc[t].CleanPortPtr? || s.pc[t].CleanFlag? || s.pc[t].CleanReady?
    requires s.pc[t].o < |s.pc| && s.pc[t].o != t
    requires s.wait[t].NoWait? && s.wait[s.pc[t].o].Held? && s.wait[s.pc[t].o].owner == t
    ensures var s' := CloseStep(s, t, s.pc[t]); Touches(s, s', t, s.pc[t].o) && s'.ports == s.ports
  {
    match s.pc[t]
    case CleanStatus(_, _) => CleanStatusTouches(s, t);
    case CleanPortPtr(_, _, _) => CleanPortPtrTouches(s, t);
    case CleanFlag(_, _) => CleanFlagTouches(s, t);
    case CleanReady(_, _, _) => CleanReadyTouches(s, t);
  }

  lemma CleanStatusWaiters(s: State, t: Tid)
    requires WellFormed(s) && t < |s.pc|
    requires s.pc[t].CleanStatus?
    requires s.pc[t].o < |s.pc| && s.pc[t].o != t
    requires HolderOk(s, t) && WaiterOk(s, t) && WaiterOk(s, s.pc[t].o)
    ensures var s', o := CloseStep(s, t, s.pc[t]), s.pc[t].o;
            && WellFormed(s') && |s'.pc| == |s.pc|
            && WaiterOk(s', t) && HolderOk(s', t) && WaiterOk(s', o)
  {
  }

  lemma CleanPortPtrWaiters(s: State, t: Tid)
    requires WellFormed(s) && t < |s.pc|
    requires s.pc[t].CleanPortPtr?
    requires s.pc[t].o < |s.pc| && s.pc[t].o != t
    requires HolderOk(s, t) && WaiterOk(s, t) && WaiterOk(s, s.pc[t].o)
    ensures var s', o := CloseStep(s, t, s.pc[t]), s.pc[t].o;
            && WellFormed(s') && |s'.pc| == |s.pc|
            && WaiterOk(s', t) && HolderOk(s', t) && WaiterOk(s', o)
  {
  }

  lemma CleanFlagWaiters(s: State, t: Tid)
    requires WellFormed(s) && t < |s.pc|
    requires s.pc[t].CleanFlag?
    requires s.pc[t].o < |s.pc| && s.pc[t].o != t
    requires HolderOk(s, t) && WaiterOk(s, t) && WaiterOk(s, s.pc[t].o)
    ensures var s', o := CloseStep(s, t, s.pc[t]), s.pc[t].o;
            && WellFormed(s') && |s'.pc| == |s.pc|
            && WaiterOk(s', t) && HolderOk(s', t) && WaiterOk(s', o)
  {
  }

  lemma CleanReadyWaitersSend(s: State, t: Tid)
    requires WellFormed(s) && t < |s.pc|
    requires s.pc[t].CleanReady? && s.pc[t].d.Send?
    requires s.pc[t].o < |s.pc| && s.pc[t].o != t
    requires HolderOk(s, t) && WaiterOk(s, t) && WaiterOk(s, s.pc[t].o)
    ensures var s', o := CloseStep(s, t, s.pc[t]), s.pc[t].o;
            && WellFormed(s') && |s'.pc| == |s.pc|
            && WaiterOk(s', t) && HolderOk(s', t) && WaiterOk(s', o)
  {
  }

  lemma CleanReadyWaitersRecv(s: State, t: Tid)
    requires WellFormed(s) && t < |s.pc|
    requires s.pc[t].CleanReady? && s.pc[t].d.Recv?
    requires s.pc[t].o < |s.pc| && s.pc[t].o != t
    requires HolderOk(s, t) && WaiterOk(s, t) && WaiterOk(s, s.pc[t].o)
    ensures var s', o := CloseStep(s, t, s.pc[t]), s.pc[t].o;
            && WellFormed(s') && |s'.pc| == |s.pc|
            && WaiterOk(s', t) && HolderOk(s', t) && WaiterOk(s', o)
  {
  }

  lemma CleanReadyWaiters(s: State, t: Tid)
    requires WellFormed(s) && t < |s.pc|
    requires s.pc[t].CleanReady?
    requires s.pc[t].o < |s.pc| && s.pc[t].o != t
    requires HolderOk(s, t) && WaiterOk(s, t) && WaiterOk(s, s.pc[t].o)
    ensures var s', o := CloseStep(s, t, s.pc[t]), s.pc[t].o;
            && WellFormed(s') && |s'.pc| == |s.pc|
            && WaiterOk(s', t) && HolderOk(s', t) && WaiterOk(s', o)
  {
    if s.pc[t].d.Send? { CleanReadyWaitersSend(s, t); } else { CleanReadyWaitersRecv(s, t); }
  }

  lemma CleanWaiters(s: State, t: Tid)
    requires WellFormed(s) && t < |s.pc|
    requires s.pc[t].CleanStatus? || s.pc[t].CleanPortPtr? || s.pc[t].CleanFlag? || s.pc[t].CleanReady?
    requires s.pc[t].o < |s.pc| && s.pc[t].o != t
    requires HolderOk(s, t) && WaiterOk(s, t) && WaiterOk(s, s.pc[t].o)
    ensures var s', o := CloseStep(s, t, s.pc[t]), s.pc[t].o;
            && WellFormed(s') && |s'.pc| == |s.pc|
            && WaiterOk(s', t) && HolderOk(s', t) && WaiterOk(s', o)
  {
    match s.pc[t]
    case CleanStatus(_, _) => CleanStatusWaiters(s, t);
    case CleanPortPtr(_, _, _) => CleanPortPtrWaiters(s, t);
    case CleanFlag(_, _) => CleanFlagWaiters(s, t);
    case CleanReady(_, _, _) => CleanReadyWaiters(s, t);
  }

  lemma WaitClean(s: State, t: Tid)
    requires WaitInv(s) && t < |s.pc|
    requires s.pc[t].CleanStatus? || s.pc[t].CleanPortPtr? || s.pc[t].CleanFlag? || s.pc[t].CleanReady?
    ensures WaitInv(CloseStep(s, t, s.pc[t]))
  {
    HeldPartner(s, t);
    CleanTouches(s, t);
    CleanWaiters(s, t);
    PartnerKept(s, CloseStep(s, t, s.pc[t]), t);
  }

  lemma CloseEndsPrivate(s: State, t: Tid)
    requires WellFormed(s) && t < |s.pc| && (s.pc[t].WaitDrained? || s.pc[t].CleanDone?) && s.pc[t].p < |s.ports|
    ensures Private(s, CloseStep(s, t, s.pc[t]), t)
  {
  }

  lemma WaitCloseEnds(s: State, t: Tid)
    requires WaitInv(s) && t < |s.pc| && (s.pc[t].WaitDrained? || s.pc[t].CleanDone?) && s.pc[t].p < |s.ports|
    ensures WaitInv(CloseStep(s, t, s.pc[t]))
  {
    CloseEndsPrivate(s, t);
    WaitPrivate(s, CloseStep(s, t, s.pc[t]), t);
  }

  /** The scheduler and the killing of a thread touch only its own status. */
  ghost predicate OwnStatus(s: State, s': State, t: Tid)
  {
    && WellFormed(s) && t < |s.pc| && WellFormed(s') && |s'.pc| == |s.pc|
    && s' == s.(pc := s.pc[t := s'.pc[t]], status := s.status[t := s'.status[t]])
    && (s'.pc[t] == s.pc[t] || (s.pc[t].Asleep? && s.status[t] == Ready && s'.pc[t].Woken?))
    && (s.status[t].Blocked? || s.status[t] == Exit ==> s'.status[t] == s.status[t] || s'.status[t] == Exit)
    && !(s'.status[t].Blocked? && s'.status[t] != s.status[t])
  }

  lemma DispatchOwn(s: State, t: Tid)
    requires WellFormed(s) && t < |s.pc|
    ensures OwnStatus(s, DispatchStep(s, t), t)
  {
  }

  lemma StatusWaiter(s: State, s': State, t: Tid, u: Tid)
    requires OwnStatus(s, s', t) && u < |s.pc| && WaiterOk(s, u) && HolderOk(s, u) && WaiterOk(s, t)
    ensures WaiterOk(s', u)
  {
  }

  lemma StatusHolder(s: State, s': State, t: Tid, u: Tid)
    requires OwnStatus(s, s', t) && u < |s.pc| && HolderOk(s, u) && WaiterOk(s, t)
    ensures HolderOk(s', u)
  {
  }

  lemma StatusKept(s: State, s': State, t: Tid)
    requires WaitInv(s) && OwnStatus(s, s', t)
    ensures WaitInv(s')
  {
    forall u | 0 <= u < |s'.pc|
      ensures WaiterOk(s', u) && HolderOk(s', u)
    {
      assert WaiterOk(s, u) && HolderOk(s, u) && WaiterOk(s, t);
      StatusWaiter(s, s', t, u);
      StatusHolder(s, s', t, u);
    }
    forall p | 0 <= p < |s'.ports|
      ensures QueueOk(s', p)
    {
      assert QueueOk(s, p);
    }
  }

  lemma WaitStatus(s: State, t: Tid, a: Action)
    requires WaitInv(s) && Enabled(s, t, a) && (a.Dispatch? || a.Kill?)
    ensures WaitInv(Apply(s, t, a))
  {
    if a.Dispatch? {
      DispatchOwn(s, t);
    }
    StatusKept(s, Apply(s, t, a), t);
  }

  lemma CallPrivate(s: State, t: Tid, a: Action)
    requires WellFormed(s) && Enabled(s, t, a) && (a.Start? || a.QueueMessage? || a.Register? || a.Close?)
    ensures Private(s, Apply(s, t, a), t)
  {
  }

  lemma WaitCall(s: State, t: Tid, a: Action)
    requires WaitInv(s) && Enabled(s, t, a) && (a.Start? || a.QueueMessage? || a.Register? || a.Close?)
    ensures WaitInv(Apply(s, t, a))
  {
    CallPrivate(s, t, a);
    WaitPrivate(s, Apply(s, t, a), t);
  }

  // ---------------------------------------------------------------------------------------------
  // Messages
  // ---------------------------------------------------------------------------------------------

  /** The thread runs ipc_transfer_message. */
  predicate Transfers(pc: Pc) { IsTake(pc) || (IsGive(pc) && !pc.Wake?) }

  /** The thread has a message in hand. */
  predicate Carries(pc: Pc) { pc.CheckSender? || pc.Deliver? || pc.RecheckReceiver? || pc.PutBack? }

  function Source(t: Tid, pc: Pc): Tid
    requires Transfers(pc)
  {
    SenderOf(t, pc.d, pc.o)
  }

  function Messages(done: seq<(Msg, Fate)>): seq<Msg>
  {
    seq(|done|, i requires 0 <= i < |done| => done[i].0)
  }

  function InHand(b: Box): seq<Msg> { if b.flight.Some? then [b.flight.value.0] else [] }
  function InSlot(b: Box): seq<Msg> { if b.pending.Some? then [b.pending.value] else [] }

  /** Conservation in order: gone, in hand, in the slot, in the queue. */
  ghost predicate BoxOk(b: Box, next: Msg)
  {
    && b.sent == Messages(b.done) + InHand(b) + InSlot(b) + b.queue
    && (b.flight.Some? ==> b.pending.None?)
    && (forall i, j :: 0 <= i < j < |b.sent| ==> b.sent[i] < b.sent[j])
    && (forall i :: 0 <= i < |b.sent| ==> b.sent[i] < next)
  }

  ghost predicate MailOk(s: State, t: Tid)
    requires WellFormed(s) && t < |s.pc|
  {
    && BoxOk(s.box[t], s.nextMsg)
    && (s.box[t].flight.Some? ==>
          var (m, a) := s.box[t].flight.value;
          a < |s.pc| && Carries(s.pc[a]) && s.pc[a].m == m && Source(a, s.pc[a]) == t)
  }

  ghost predicate ActorOk(s: State, a: Tid)
    requires WellFormed(s) && a < |s.pc|
  {
    var pc := s.pc[a];
    && (Transfers(pc) ==>
          && Source(a, pc) < |s.pc|
          && s.box[Source(a, pc)].flight == (if Carries(pc) then Some((pc.m, a)) else None)
          && (pc.TakeQueued? ==> s.box[Source(a, pc)].pending == None))
    && (pc.OrphanQueued? ==> s.box[a].pending == None)
  }

  ghost predicate MailInv(s: State)
  {
    && WellFormed(s)
    && (forall t :: 0 <= t < |s.pc| ==> MailOk(s, t))
    && (forall t :: 0 <= t < |s.pc| ==> ActorOk(s, t))
  }

  /** Transfers on one sender never overlap. */
  lemma TransfersExclusive(s: State, a: Tid, b: Tid)
    requires WaitInv(s) && a < |s.pc| && b < |s.pc| && Transfers(s.pc[a]) && Transfers(s.pc[b])
    requires Source(a, s.pc[a]) == Source(b, s.pc[b])
    ensures a == b
  {
    assert HolderOk(s, a) && HolderOk(s, b) && WaiterOk(s, a) && WaiterOk(s, b);
  }

  /** Nobody transfers from a thread that is running its own code outside a transfer. */
  lemma SelfExclusive(s: State, t: Tid, b: Tid)
    requires WaitInv(s) && t < |s.pc| && b < |s.pc| && b != t && !IsWaiting(s.pc[t]) && Transfers(s.pc[b])
    ensures Source(b, s.pc[b]) != t
  {
    assert HolderOk(s, b) && WaiterOk(s, t);
  }

  /** The box thread t may change: the source of its transfer, else its own. */
  function Touched(t: Tid, pc: Pc): Tid { if Transfers(pc) then Source(t, pc) else t }

  lemma OtherBoxes(s: State, t: Tid, b: Tid)
    requires WaitInv(s) && t < |s.pc| && b < |s.pc| && b != t && !IsWaiting(s.pc[t]) && Transfers(s.pc[b])
    ensures Source(b, s.pc[b]) != Touched(t, s.pc[t])
  {
    if Transfers(s.pc[t]) {
      if Source(b, s.pc[b]) == Source(t, s.pc[t]) {
        TransfersExclusive(s, t, b);
      }
    } else {
      SelfExclusive(s, t, b);
    }
  }

  ghost predicate MailLocal(s: State, s': State, t: Tid)
    requires WellFormed(s) && t < |s.pc|
  {
    && WellFormed(s') && |s'.pc| == |s.pc| && s'.nextMsg >= s.nextMsg
    && (forall u :: 0 <= u < |s.pc| && u != t ==> s'.pc[u] == s.pc[u])
    && (forall u :: 0 <= u < |s.pc| && u != Touched(t, s.pc[t]) ==> s'.box[u] == s.box[u])
  }

  lemma MailKept(s: State, s': State, t: Tid)
    requires MailInv(s) && WaitInv(s) && t < |s.pc| && !IsWaiting(s.pc[t]) && MailStep(s, s', t)
    ensures MailInv(s')
  {
    forall u | 0 <= u < |s'.pc|
      ensures MailOk(s', u)
    {
      assert MailOk(s, u);
      if u != Touched(t, s.pc[t]) && s.box[u].flight.Some? {
        assert s.box[u].flight.value.1 != t;
      }
    }
    forall u | 0 <= u < |s'.pc|
      ensures ActorOk(s', u)
    {
      assert ActorOk(s, u);
      if u != t && Transfers(s.pc[u]) {
        OtherBoxes(s, t, u);
      }
      assert HolderOk(s, t) && WaiterOk(s, u);
    }
  }

  /** A step that moves no message. */
  ghost predicate MailSame(s: State, s': State, t: Tid)
  {
    && WellFormed(s) && t < |s.pc| && WellFormed(s') && |s'.pc| == |s.pc| && s'.box == s.box && s'.nextMsg == s.nextMsg
    && (forall u :: 0 <= u < |s.pc| && u != t ==> s'.pc[u] == s.pc[u])
    && !Carries(s.pc[t])
  }

  lemma MailQuiet(s: State, s': State, t: Tid)
    requires MailInv(s) && MailSame(s, s', t) && ActorOk(s', t)
    ensures MailInv(s')
  {
    forall u | 0 <= u < |s'.pc|
      ensures MailOk(s', u) && ActorOk(s', u)
    {
      assert MailOk(s, u) && ActorOk(s, u);
    }
  }

  /** The source of a transfer that is about to start has no message in anyone's hand. */
  lemma NothingInHand(s: State, t: Tid, src: Tid)
    requires MailInv(s) && WaitInv(s) && t < |s.pc| && src < |s.pc| && !Carries(s.pc[t])
    requires (src == t && !IsWaiting(s.pc[t])) || (Holds(s.pc[t]) && s.pc[t].o == src)
    ensures s.box[src].flight == None
  {
    assert MailOk(s, src) && HolderOk(s, t) && WaiterOk(s, src);
    assert s.box[src].flight.Some? ==> HolderOk(s, s.box[src].flight.value.1);
  }

  lemma MatchSame(s: State, t: Tid, ok: bool)
    requires WellFormed(s) && t < |s.pc| && IsMatch(s.pc[t])
    ensures MailSame(s, MatchStep(s, t, s.pc[t], ok), t)
  {
  }

  lemma MailMatch(s: State, t: Tid, ok: bool)
    requires MailInv(s) && WaitInv(s) && t < |s.pc| && IsMatch(s.pc[t])
    ensures MailInv(MatchStep(s, t, s.pc[t], ok))
  {
    var s' := MatchStep(s, t, s.pc[t], ok);
    if Transfers(s'.pc[t]) {
      assert HolderOk(s, t);
      NothingInHand(s, t, Source(t, s'.pc[t]));
    }
    MatchSame(s, t, ok);
    MailQuiet(s, s', t);
  }

  lemma MessagesAppend(done: seq<(Msg, Fate)>, m: Msg, f: Fate)
    ensures Messages(done + [(m, f)]) == Messages(done) + [m]
  {
  }

  /** The message in hand leaves for good. */
  lemma FinishOk(b: Box, m: Msg, a: Tid, f: Fate, next: Msg)
    requires BoxOk(b, next) && b.flight == Some((m, a))
    ensures BoxOk(Finish(b, m, f), next)
  {
    MessagesAppend(b.done, m, f);
  }

  lemma TakePendingOk(b: Box, a: Tid, next: Msg)
    requires BoxOk(b, next) && b.flight == None && b.pending.Some?
    ensures BoxOk(b.(pending := None, flight := Some((b.pending.value, a))), next)
  {
  }

  lemma TakeQueuedOk(b: Box, a: Tid, next: Msg)
    requires BoxOk(b, next) && b.flight == None && b.pending == None && b.queue != []
    ensures BoxOk(b.(queue := b.queue[1..], flight := Some((b.queue[0], a))), next)
  {
    assert b.queue == [b.queue[0]] + b.queue[1..];
  }

  lemma PutBackOk(b: Box, m: Msg, a: Tid, next: Msg)
    requires BoxOk(b, next) && b.flight == Some((m, a))
    ensures b.pending == None && BoxOk(b.(pending := Some(m), flight := None), next)
  {
  }

  /** What a step of a transfer has to do with the mail for the mail to stay in order. */
  ghost predicate MailStep(s: State, s': State, t: Tid)
  {
    && WellFormed(s) && t < |s.pc| && MailLocal(s, s', t) && ActorOk(s', t)
    && (Touched(t, s.pc[t]) < |s.pc| ==> MailOk(s', Touched(t, s.pc[t])))
  }

  lemma CheckReceiverMailSend(s: State, t: Tid, ok: bool)
    requires WellFormed(s) && t < |s.pc| && s.pc[t].CheckReceiver? && s.pc[t].d.Send? && s.pc[t].o < |s.pc| && ActorOk(s, t) && MailOk(s, Source(t, s.pc[t]))
    ensures MailStep(s, TakeStep(s, t, s.pc[t], ok), t)
  {
  }

  lemma CheckReceiverMailRecv(s: State, t: Tid, ok: bool)
    requires WellFormed(s) && t < |s.pc| && s.pc[t].CheckReceiver? && s.pc[t].d.Recv? && s.pc[t].o < |s.pc| && ActorOk(s, t) && MailOk(s, Source(t, s.pc[t]))
    ensures MailStep(s, TakeStep(s, t, s.pc[t], ok), t)
  {
  }

  lemma CheckReceiverMail(s: State, t: Tid, ok: bool)
    requires WellFormed(s) && t < |s.pc| && s.pc[t].CheckReceiver? && s.pc[t].o < |s.pc| && ActorOk(s, t) && MailOk(s, Source(t, s.pc[t]))
    ensures MailStep(s, TakeStep(s, t, s.pc[t], ok), t)
  {
    if s.pc[t].d.Send? { CheckReceiverMailSend(s, t, ok); } else { CheckReceiverMailRecv(s, t, ok); }
  }

  lemma MailCheckReceiver(s: State, t: Tid, ok: bool)
    requires MailInv(s) && WaitInv(s) && t < |s.pc| && s.pc[t].CheckReceiver?
    ensures MailInv(TakeStep(s, t, s.pc[t], ok))
  {
    assert ActorOk(s, t) && HolderOk(s, t);
    assert MailOk(s, Source(t, s.pc[t]));
    CheckReceiverMail(s, t, ok);
    MailKept(s, TakeStep(s, t, s.pc[t], ok), t);
  }

  lemma TakePendingMail(s: State, t: Tid, ok: bool)
    requires WellFormed(s) && t < |s.pc| && s.pc[t].TakePending? && s.pc[t].o < |s.pc| && ActorOk(s, t) && MailOk(s, Source(t, s.pc[t]))
    ensures MailStep(s, TakeStep(s, t, s.pc[t], ok), t)
  {
    var src := Source(t, s.pc[t]);
    if s.box[src].pending.Some? {
      TakePendingOk(s.box[src], t, s.nextMsg);
    }
  }

  lemma MailTakePending(s: State, t: Tid, ok: bool)
    requires MailInv(s) && WaitInv(s) && t < |s.pc| && s.pc[t].TakePending?
    ensures MailInv(TakeStep(s, t, s.pc[t], ok))
  {
    assert ActorOk(s, t) && HolderOk(s, t);
    assert MailOk(s, Source(t, s.pc[t]));
    TakePendingMail(s, t, ok);
    MailKept(s, TakeStep(s, t, s.pc[t], ok), t);
  }

  lemma TakeQueuedMailSend(s: State, t: Tid, ok: bool)
    requires WellFormed(s) && t < |s.pc| && s.pc[t].TakeQueued? && s.pc[t].d.Send? && s.pc[t].o < |s.pc| && ActorOk(s, t) && MailOk(s, Source(t, s.pc[t]))
    ensures MailStep(s, TakeStep(s, t, s.pc[t], ok), t)
  {
    var src := Source(t, s.pc[t]);
    if s.box[src].queue != [] {
      TakeQueuedOk(s.box[src], t, s.nextMsg);
    }
  }

  lemma TakeQueuedMailRecv(s: State, t: Tid, ok: bool)
    requires WellFormed(s) && t < |s.pc| && s.pc[t].TakeQueued? && s.pc[t].d.Recv? && s.pc[t].o < |s.pc| && ActorOk(s, t) && MailOk(s, Source(t, s.pc[t]))
    ensures MailStep(s, TakeStep(s, t, s.pc[t], ok), t)
  {
    var src := Source(t, s.pc[t]);
    if s.box[src].queue != [] {
      TakeQueuedOk(s.box[src], t, s.nextMsg);
    }
  }

  lemma TakeQueuedMail(s: State, t: Tid, ok: bool)
    requires WellFormed(s) && t < |s.pc| && s.pc[t].TakeQueued? && s.pc[t].o < |s.pc| && ActorOk(s, t) && MailOk(s, Source(t, s.pc[t]))
    ensures MailStep(s, TakeStep(s, t, s.pc[t], ok), t)
  {
    if s.pc[t].d.Send? { TakeQueuedMailSend(s, t, ok); } else { TakeQueuedMailRecv(s, t, ok); }
  }

  lemma MailTakeQueued(s: State, t: Tid, ok: bool)
    requires MailInv(s) && WaitInv(s) && t < |s.pc| && s.pc[t].TakeQueued?
    ensures MailInv(TakeStep(s, t, s.pc[t], ok))
  {
    assert ActorOk(s, t) && HolderOk(s, t);
    assert MailOk(s, Source(t, s.pc[t]));
    TakeQueuedMail(s, t, ok);
    MailKept(s, TakeStep(s, t, s.pc[t], ok), t);
  }

  lemma CheckSenderMail(s: State, t: Tid, ok: bool)
    requires WellFormed(s) && t < |s.pc| && s.pc[t].CheckSender? && s.pc[t].o < |s.pc| && ActorOk(s, t) && MailOk(s, Source(t, s.pc[t]))
    ensures MailStep(s, TakeStep(s, t, s.pc[t], ok), t)
  {
    var src := Source(t, s.pc[t]);
    FinishOk(s.box[src], s.pc[t].m, t, Dropped, s.nextMsg);
  }

  lemma MailCheckSender(s: State, t: Tid, ok: bool)
    requires MailInv(s) && WaitInv(s) && t < |s.pc| && s.pc[t].CheckSender?
    ensures MailInv(TakeStep(s, t, s.pc[t], ok))
  {
    assert ActorOk(s, t) && HolderOk(s, t);
    assert MailOk(s, Source(t, s.pc[t]));
    CheckSenderMail(s, t, ok);
    MailKept(s, TakeStep(s, t, s.pc[t], ok), t);
  }

  lemma DeliverMailSend(s: State, t: Tid, ok: bool)
    requires WellFormed(s) && t < |s.pc| && s.pc[t].Deliver? && s.pc[t].d.Send? && s.pc[t].o < |s.pc| && ActorOk(s, t) && MailOk(s, Source(t, s.pc[t]))
    ensures MailStep(s, GiveStep(s, t, s.pc[t], ok), t)
  {
    var src := Source(t, s.pc[t]);
    FinishOk(s.box[src], s.pc[t].m, t, Dropped, s.nextMsg);
  }

  lemma DeliverMailRecv(s: State, t: Tid, ok: bool)
    requires WellFormed(s) && t < |s.pc| && s.pc[t].Deliver? && s.pc[t].d.Recv? && s.pc[t].o < |s.pc| && ActorOk(s, t) && MailOk(s, Source(t, s.pc[t]))
    ensures MailStep(s, GiveStep(s, t, s.pc[t], ok), t)
  {
    var src := Source(t, s.pc[t]);
    FinishOk(s.box[src], s.pc[t].m, t, Dropped, s.nextMsg);
  }

  lemma DeliverMail(s: State, t: Tid, ok: bool)
    requires WellFormed(s) && t < |s.pc| && s.pc[t].Deliver? && s.pc[t].o < |s.pc| && ActorOk(s, t) && MailOk(s, Source(t, s.pc[t]))
    ensures MailStep(s, GiveStep(s, t, s.pc[t], ok), t)
  {
    if s.pc[t].d.Send? { DeliverMailSend(s, t, ok); } else { DeliverMailRecv(s, t, ok); }
  }

  lemma MailDeliver(s: State, t: Tid, ok: bool)
    requires MailInv(s) && WaitInv(s) && t < |s.pc| && s.pc[t].Deliver?
    ensures MailInv(GiveStep(s, t, s.pc[t], ok))
  {
    assert ActorOk(s, t) && HolderOk(s, t);
    assert MailOk(s, Source(t, s.pc[t]));
    DeliverMail(s, t, ok);
    MailKept(s, GiveStep(s, t, s.pc[t], ok), t);
  }

  lemma RecheckReceiverMail(s: State, t: Tid, ok: bool)
    requires WellFormed(s) && t < |s.pc| && s.pc[t].RecheckReceiver? && s.pc[t].o < |s.pc| && ActorOk(s, t) && MailOk(s, Source(t, s.pc[t]))
    ensures MailStep(s, GiveStep(s, t, s.pc[t], ok), t)
  {
    var src := Source(t, s.pc[t]);
    FinishOk(s.box[src], s.pc[t].m, t, Accepted(ReceiverOf(t, s.pc[t].d, s.pc[t].o)), s.nextMsg);
  }

  lemma MailRecheck(s: State, t: Tid, ok: bool)
    requires MailInv(s) && WaitInv(s) && t < |s.pc| && s.pc[t].RecheckReceiver?
    ensures MailInv(GiveStep(s, t, s.pc[t], ok))
  {
    assert ActorOk(s, t) && HolderOk(s, t);
    assert MailOk(s, Source(t, s.pc[t]));
    RecheckReceiverMail(s, t, ok);
    MailKept(s, GiveStep(s, t, s.pc[t], ok), t);
  }

  lemma PutBackMail(s: State, t: Tid, ok: bool)
    requires WellFormed(s) && t < |s.pc| && s.pc[t].PutBack? && s.pc[t].o < |s.pc| && ActorOk(s, t) && MailOk(s, Source(t, s.pc[t]))
    ensures MailStep(s, GiveStep(s, t, s.pc[t], ok), t)
  {
    var src := Source(t, s.pc[t]);
    PutBackOk(s.box[src], s.pc[t].m, t, s.nextMsg);
  }

  lemma MailPutBack(s: State, t: Tid, ok: bool)
    requires MailInv(s) && WaitInv(s) && t < |s.pc| && s.pc[t].PutBack?
    ensures MailInv(GiveStep(s, t, s.pc[t], ok))
  {
    assert ActorOk(s, t) && HolderOk(s, t);
    assert MailOk(s, Source(t, s.pc[t]));
    PutBackMail(s, t, ok);
    MailKept(s, GiveStep(s, t, s.pc[t], ok), t);
  }

  lemma MailWake(s: State, t: Tid, ok: bool)
    requires MailInv(s) && t < |s.pc| && s.pc[t].Wake?
    ensures MailInv(GiveStep(s, t, s.pc[t], ok))
  {
    MailQuiet(s, GiveStep(s, t, s.pc[t], ok), t);
  }

  lemma WokenMail(s: State, t: Tid)
    requires WellFormed(s) && t < |s.pc| && s.pc[t].Woken? && ActorOk(s, t) && MailOk(s, t) && s.box[t].flight == None
    ensures MailStep(s, OrphanStep(s, t, s.pc[t]), t)
  {
  }

  lemma OrphanPendingMail(s: State, t: Tid)
    requires WellFormed(s) && t < |s.pc| && s.pc[t].OrphanPending? && ActorOk(s, t) && MailOk(s, t) && s.box[t].flight == None
    ensures MailStep(s, OrphanStep(s, t, s.pc[t]), t)
  {
    var b := s.box[t];
    if b.pending.Some? {
      TakePendingOk(b, t, s.nextMsg);
      FinishOk(b.(pending := None, flight := Some((b.pending.value, t))), b.pending.value, t, Dropped, s.nextMsg);
    }
  }

  lemma OrphanQueuedMail(s: State, t: Tid)
    requires WellFormed(s) && t < |s.pc| && s.pc[t].OrphanQueued? && ActorOk(s, t) && MailOk(s, t) && s.box[t].flight == None
    ensures MailStep(s, OrphanStep(s, t, s.pc[t]), t)
  {
    var b := s.box[t];
    if b.queue != [] {
      TakeQueuedOk(b, t, s.nextMsg);
      FinishOk(b.(queue := b.queue[1..], flight := Some((b.queue[0], t))), b.queue[0], t, Dropped, s.nextMsg);
    }
  }

  lemma MailOrphan(s: State, t: Tid)
    requires MailInv(s) && WaitInv(s) && t < |s.pc| && IsOrphan(s.pc[t])
    ensures MailInv(OrphanStep(s, t, s.pc[t]))
  {
    assert ActorOk(s, t) && MailOk(s, t);
    NothingInHand(s, t, t);
    match s.pc[t] {
      case Woken(_, _) => WokenMail(s, t);
      case OrphanPending => OrphanPendingMail(s, t);
      case OrphanQueued => OrphanQueuedMail(s, t);
    }
    MailKept(s, OrphanStep(s, t, s.pc[t]), t);
  }

  lemma MailQueueMessage(s: State, t: Tid)
    requires MailInv(s) && WaitInv(s) && t < |s.pc| && s.pc[t].Idle?
    ensures MailInv(QueueMessageStep(s, t))
  {
    var s' := QueueMessageStep(s, t);
    forall u | 0 <= u < |s.pc|
      ensures MailOk(s', u) && ActorOk(s', u)
    {
      assert MailOk(s, u) && ActorOk(s, u);
      QueueMessageAt(s, t, u);
    }
  }

  lemma QueueMessageAt(s: State, t: Tid, u: Tid)
    requires WellFormed(s) && t < |s.pc| && u < |s.pc| && MailOk(s, u) && ActorOk(s, u)
    ensures WellFormed(QueueMessageStep(s, t)) && MailOk(QueueMessageStep(s, t), u) && ActorOk(QueueMessageStep(s, t), u)
  {
    if u == t {
      QueuedOk(s.box[t], s.nextMsg);
    }
  }

  lemma QueuedOk(b: Box, m: Msg)
    requires BoxOk(b, m)
    ensures BoxOk(b.(queue := b.queue + [m], sent := b.sent + [m]), m + 1)
  {
    assert Messages(b.done) + InHand(b) + InSlot(b) + (b.queue + [m])
        == Messages(b.done) + InHand(b) + InSlot(b) + b.queue + [m];
  }

  lemma GateSame(s: State, t: Tid)
    requires WellFormed(s) && t < |s.pc| && IsGate(s.pc[t])
    ensures MailSame(s, GateStep(s, t, s.pc[t]), t) && !Transfers(GateStep(s, t, s.pc[t]).pc[t]) && !GateStep(s, t, s.pc[t]).pc[t].OrphanQueued?
  {
  }

  lemma MailGate(s: State, t: Tid)
    requires MailInv(s) && t < |s.pc| && IsGate(s.pc[t])
    ensures MailInv(GateStep(s, t, s.pc[t]))
  {
    GateSame(s, t);
    MailQuiet(s, GateStep(s, t, s.pc[t]), t);
  }

  lemma BlockSame(s: State, t: Tid, ok: bool)
    requires WellFormed(s) && t < |s.pc| && IsBlock(s.pc[t])
    ensures MailSame(s, BlockStep(s, t, s.pc[t], ok), t) && !Transfers(BlockStep(s, t, s.pc[t], ok).pc[t]) && !BlockStep(s, t, s.pc[t], ok).pc[t].OrphanQueued?
  {
  }

  lemma MailBlock(s: State, t: Tid, ok: bool)
    requires MailInv(s) && t < |s.pc| && IsBlock(s.pc[t])
    ensures MailInv(BlockStep(s, t, s.pc[t], ok))
  {
    BlockSame(s, t, ok);
    MailQuiet(s, BlockStep(s, t, s.pc[t], ok), t);
  }

  lemma ClosePortSame(s: State, t: Tid)
    requires WellFormed(s) && t < |s.pc| && (s.pc[t].WaitDrained? || s.pc[t].CleanNext? || s.pc[t].CleanDone?)
    ensures MailSame(s, CloseStep(s, t, s.pc[t]), t) && !Transfers(CloseStep(s, t, s.pc[t]).pc[t]) && !CloseStep(s, t, s.pc[t]).pc[t].OrphanQueued?
  {
  }

  lemma MailClosePort(s: State, t: Tid)
    requires MailInv(s) && t < |s.pc| && (s.pc[t].WaitDrained? || s.pc[t].CleanNext? || s.pc[t].CleanDone?)
    ensures MailInv(CloseStep(s, t, s.pc[t]))
  {
    ClosePortSame(s, t);
    MailQuiet(s, CloseStep(s, t, s.pc[t]), t);
  }

  lemma CleanSame(s: State, t: Tid)
    requires WellFormed(s) && t < |s.pc| && (s.pc[t].CleanStatus? || s.pc[t].CleanPortPtr? || s.pc[t].CleanFlag? || s.pc[t].CleanReady?)
    ensures MailSame(s, CloseStep(s, t, s.pc[t]), t) && !Transfers(CloseStep(s, t, s.pc[t]).pc[t]) && !CloseStep(s, t, s.pc[t]).pc[t].OrphanQueued?
  {
  }

  lemma MailClean(s: State, t: Tid)
    requires MailInv(s) && t < |s.pc|
    requires s.pc[t].CleanStatus? || s.pc[t].CleanPortPtr? || s.pc[t].CleanFlag? || s.pc[t].CleanReady?
    ensures MailInv(CloseStep(s, t, s.pc[t]))
  {
    CleanSame(s, t);
    MailQuiet(s, CloseStep(s, t, s.pc[t]), t);
  }

  lemma MailCall(s: State, t: Tid, a: Action)
    requires MailInv(s) && Enabled(s, t, a) && (a.Start? || a.Register? || a.Close?)
    ensures MailInv(Apply(s, t, a))
  {
    MailQuiet(s, Apply(s, t, a), t);
  }

  lemma MailStatus(s: State, t: Tid, a: Action)
    requires MailInv(s) && Enabled(s, t, a) && (a.Dispatch? || a.Kill?)
    ensures MailInv(Apply(s, t, a))
  {
    if a.Dispatch? {
      DispatchOwn(s, t);
    }
    MailOwnStatus(s, Apply(s, t, a), t);
  }

  lemma MailOwnStatus(s: State, s': State, t: Tid)
    requires MailInv(s) && OwnStatus(s, s', t)
    ensures MailInv(s')
  {
    forall u | 0 <= u < |s'.pc|
      ensures MailOk(s', u) && ActorOk(s', u)
    {
      assert MailOk(s, u) && ActorOk(s, u);
    }
  }

  // ---------------------------------------------------------------------------------------------
  // Every run
  // ---------------------------------------------------------------------------------------------

  ghost predicate Inv(s: State)
  {
    GateInv(s) && WaitInv(s) && MailInv(s)
  }

  lemma {:induction false} CountInIdle(pcs: seq<Pc>, p: Pid)
    requires forall t :: 0 <= t < |pcs| ==> pcs[t] == Idle
    ensures CountIn(pcs, p) == 0
  {
    CountInZero(pcs, p);
  }

  lemma InitGate(s: State)
    requires Init(s)
    ensures GateInv(s)
  {
    forall p | 0 <= p < |s.ports|
      ensures GateOk(s, p)
    {
      CountInIdle(s.pc, p);
    }
  }

  lemma InitWait(s: State)
    requires Init(s)
    ensures WaitInv(s)
  {
  }

  lemma InitMail(s: State)
    requires Init(s)
    ensures MailInv(s)
  {
  }

  lemma InitInv(s: State)
    requires Init(s)
    ensures Inv(s)
  {
    InitGate(s);
    InitWait(s);
    InitMail(s);
  }

  lemma WaitApply(s: State, t: Tid, a: Action)
    requires GateInv(s) && WaitInv(s) && Enabled(s, t, a)
    ensures WaitInv(Apply(s, t, a))
  {
    if a.Advance? {
      var pc := s.pc[t];
      assert InRange(pc, |s.ports|);
      if IsGate(pc) { WaitGate(s, t); }
      else if pc.TryMatch? { WaitTryMatch(s, t, a.ok); }
      else if IsMatch(pc) { WaitMatch(s, t, a.ok); }
      else if IsTake(pc) { WaitTake(s, t, a.ok); }
      else if IsGive(pc) { WaitGive(s, t, a.ok); }
      else if IsBlock(pc) { WaitBlock(s, t, a.ok); }
      else if IsOrphan(pc) { WaitOrphan(s, t); }
      else if pc.CleanNext? { WaitCleanNext(s, t); }
      else if pc.WaitDrained? || pc.CleanDone? { WaitCloseEnds(s, t); }
      else { WaitClean(s, t); }
    } else if a.Dispatch? || a.Kill? {
      WaitStatus(s, t, a);
    } else {
      WaitCall(s, t, a);
    }
  }

  lemma MailApply(s: State, t: Tid, a: Action)
    requires WaitInv(s) && MailInv(s) && Enabled(s, t, a)
    ensures MailInv(Apply(s, t, a))
  {
    if a.Advance? {
      var pc := s.pc[t];
      if IsGate(pc) { MailGate(s, t); }
      else if IsMatch(pc) { MailMatch(s, t, a.ok); }
      else if pc.CheckReceiver? { MailCheckReceiver(s, t, a.ok); }
      else if pc.TakePending? { MailTakePending(s, t, a.ok); }
      else if pc.TakeQueued? { MailTakeQueued(s, t, a.ok); }
      else if pc.CheckSender? { MailCheckSender(s, t, a.ok); }
      else if pc.Deliver? { MailDeliver(s, t, a.ok); }
      else if pc.RecheckReceiver? { MailRecheck(s, t, a.ok); }
      else if pc.PutBack? { MailPutBack(s, t, a.ok); }
      else if pc.Wake? { MailWake(s, t, a.ok); }
      else if IsBlock(pc) { MailBlock(s, t, a.ok); }
      else if IsOrphan(pc) { MailOrphan(s, t); }
      else if pc.WaitDrained? || pc.CleanNext? || pc.CleanDone? { MailClosePort(s, t); }
      else { MailClean(s, t); }
    } else if a.QueueMessage? {
      MailQueueMessage(s, t);
    } else if a.Dispatch? || a.Kill? {
      MailStatus(s, t, a);
    } else {
      MailCall(s, t, a);
    }
  }

  lemma ApplyInv(s: State, t: Tid, a: Action)
    requires Inv(s) && Enabled(s, t, a)
    ensures Inv(Apply(s, t, a))
  {
    GateApply(s, t, a);
    WaitApply(s, t, a);
    MailApply(s, t, a);
  }

  type Schedule = seq<(Tid, Action)>

  ghost predicate IsRun(run: seq<State>, choices: Schedule)
  {
    && |run| == |choices| + 1
    && Init(run[0])
    && forall i {:trigger choices[i]} :: 0 <= i < |choices| ==>
         Enabled(run[i], choices[i].0, choices[i].1) && run[i + 1] == Apply(run[i], choices[i].0, choices[i].1)
  }

  lemma {:induction false} RunInv(run: seq<State>, choices: Schedule, i: nat)
    requires IsRun(run, choices) && i < |run|
    ensures Inv(run[i])
  {
    if i == 0 {
      InitInv(run[0]);
    } else {
      RunInv(run, choices, i - 1);
      ApplyInv(run[i - 1], choices[i - 1].0, choices[i - 1].1);
    }
  }

  // ---------------------------------------------------------------------------------------------
  // Closing a port
  // ---------------------------------------------------------------------------------------------

  /** Nobody works on the port any more, and its queue can only shrink. */
  ghost predicate Quiesced(s: State, s': State, p: Pid)
    requires p < |s.ports|
  {
    && |s'.ports| == |s.ports| && s'.ports[p].drained
    && (s.ports[p].life == Closed ==> s'.ports[p].life == Closed)
    && |s'.ports[p].queue| <= |s.ports[p].queue|
    && s'.ports[p].queue == s.ports[p].queue[|s.ports[p].queue| - |s'.ports[p].queue|..]
    && forall t :: 0 <= t < |s'.pc| ==> !Inside(s'.pc[t], p)
  }

  /** A step of a thread that is not inside port p, seen from p. */
  ghost predicate PortKept(s: State, s': State, p: Pid)
    requires p < |s.ports|
  {
    && |s'.ports| == |s.ports|
    && (s.ports[p].drained ==> s'.ports[p].drained)
    && (s'.ports[p].life == s.ports[p].life || (s.ports[p].life == Closing && s'.ports[p].life == Closed)
        || s.ports[p].life == Registered || s.ports[p].life == Active)
    && (s'.ports[p].queue == s.ports[p].queue
        || (s.ports[p].queue != [] && s'.ports[p].queue == s.ports[p].queue[1..]))
  }

  lemma OutsiderTake(s: State, t: Tid, ok: bool, p: Pid)
    requires t < |s.pc| && p < |s.ports| && IsTake(s.pc[t]) && s.pc[t].p < |s.ports|
    ensures PortKept(s, TakeStep(s, t, s.pc[t], ok), p)
  {
    TakeQuiet(s, t, ok);
  }

  lemma OutsiderGive(s: State, t: Tid, ok: bool, p: Pid)
    requires t < |s.pc| && p < |s.ports| && IsGive(s.pc[t]) && s.pc[t].p < |s.ports|
    ensures PortKept(s, GiveStep(s, t, s.pc[t], ok), p)
  {
    GiveQuiet(s, t, ok);
  }

  lemma OutsiderGate(s: State, t: Tid, p: Pid)
    requires t < |s.pc| && p < |s.ports| && IsGate(s.pc[t])
    ensures PortKept(s, GateStep(s, t, s.pc[t]), p)
  {
  }

  lemma OutsiderMatch(s: State, t: Tid, ok: bool, p: Pid)
    requires t < |s.pc| && p < |s.ports| && IsMatch(s.pc[t])
    ensures PortKept(s, MatchStep(s, t, s.pc[t], ok), p)
  {
  }

  lemma OutsiderBlock(s: State, t: Tid, ok: bool, p: Pid)
    requires t < |s.pc| && p < |s.ports| && IsBlock(s.pc[t]) && s.pc[t].p != p
    ensures PortKept(s, BlockStep(s, t, s.pc[t], ok), p)
  {
  }

  lemma OutsiderClose(s: State, t: Tid, p: Pid)
    requires t < |s.pc| && p < |s.ports| && IsClose(s.pc[t])
    ensures PortKept(s, CloseStep(s, t, s.pc[t]), p)
  {
  }

  lemma OutsiderCall(s: State, t: Tid, a: Action, p: Pid)
    requires Enabled(s, t, a) && !a.Advance? && p < |s.ports|
    ensures PortKept(s, Apply(s, t, a), p)
  {
  }

  lemma OutsiderStep(s: State, t: Tid, a: Action, p: Pid)
    requires GateInv(s) && Enabled(s, t, a) && p < |s.ports| && !Inside(s.pc[t], p)
    ensures PortKept(s, Apply(s, t, a), p)
  {
    if a.Advance? {
      var pc := s.pc[t];
      assert InRange(pc, |s.ports|);
      if IsGate(pc) { OutsiderGate(s, t, p); }
      else if IsMatch(pc) { OutsiderMatch(s, t, a.ok, p); }
      else if IsTake(pc) { OutsiderTake(s, t, a.ok, p); }
      else if IsGive(pc) { OutsiderGive(s, t, a.ok, p); }
      else if IsBlock(pc) { OutsiderBlock(s, t, a.ok, p); }
      else if IsOrphan(pc) { assert OrphanStep(s, t, pc).ports == s.ports; }
      else { OutsiderClose(s, t, p); }
    } else {
      OutsiderCall(s, t, a, p);
    }
  }

  lemma QuiescedStep(s: State, t: Tid, a: Action, p: Pid)
    requires Inv(s) && Enabled(s, t, a) && p < |s.ports| && s.ports[p].drained
    ensures Quiesced(s, Apply(s, t, a), p)
  {
    assert GateOk(s, p);
    OutsiderStep(s, t, a, p);
    GateApply(s, t, a);
    assert GateOk(Apply(s, t, a), p);
  }

  /**
   Once the closing thread has seen the operation count at zero, no operation is in progress on
   the port and no request is ever enqueued again: the queue is from then on a suffix of itself.
   After the clean it is empty for good.
   */
  lemma DrainedPortStaysQuiet(run: seq<State>, choices: Schedule, i: nat, j: nat, p: Pid)
    requires IsRun(run, choices) && i <= j < |run| && p < |run[i].ports| && run[i].ports[p].drained
    ensures Quiesced(run[i], run[j], p)
    ensures run[i].ports[p].life == Closed ==> run[j].ports[p].queue == []
  {
    DrainedNow(run, choices, i, p);
    StaysQuiet(run, choices, i, j, p);
  }

  lemma {:induction false} StaysQuiet(run: seq<State>, choices: Schedule, i: nat, j: nat, p: Pid)
    requires IsRun(run, choices) && i <= j < |run| && p < |run[i].ports| && run[i].ports[p].drained
    ensures Quiesced(run[i], run[j], p)
    decreases j
  {
    if i < j {
      StaysQuiet(run, choices, i, j - 1, p);
      QuiescedNext(run, choices, i, j, p);
    } else {
      DrainedNow(run, choices, i, p);
    }
  }

  lemma DrainedNow(run: seq<State>, choices: Schedule, i: nat, p: Pid)
    requires IsRun(run, choices) && i < |run| && p < |run[i].ports| && run[i].ports[p].drained
    ensures Quiesced(run[i], run[i], p)
    ensures run[i].ports[p].life == Closed ==> run[i].ports[p].queue == []
  {
    RunInv(run, choices, i);
    assert GateOk(run[i], p);
  }

  datatype Key = Key
  ghost predicate OpenMoves(k: Key) { true }

  /** A step leads from s to s' (folded). */
  ghost predicate Moves(s: State, t: Tid, a: Action, s': State)
  {
    forall k: Key {:trigger OpenMoves(k)} :: OpenMoves(k) ==> Enabled(s, t, a) && s' == Apply(s, t, a)
  }

  lemma StepOf(run: seq<State>, choices: Schedule, j: nat) returns (t: Tid, a: Action)
    requires IsRun(run, choices) && 0 < j < |run|
    ensures Moves(run[j - 1], t, a, run[j])
  {
    t, a := choices[j - 1].0, choices[j - 1].1;
  }

  lemma QuiescedMove(s0: State, s: State, t: Tid, a: Action, s': State, p: Pid)
    requires Inv(s) && Moves(s, t, a, s') && p < |s0.ports| && Quiesced(s0, s, p)
    ensures Quiesced(s0, s', p)
  {
    assert OpenMoves(Key);
    QuiescedStep(s, t, a, p);
  }

  lemma QuiescedNext(run: seq<State>, choices: Schedule, i: nat, j: nat, p: Pid)
    requires IsRun(run, choices) && i < j < |run| && p < |run[i].ports| && Quiesced(run[i], run[j - 1], p)
    ensures Quiesced(run[i], run[j], p)
  {
    RunInv(run, choices, j - 1);
    var t, a := StepOf(run, choices, j);
    QuiescedMove(run[i], run[j - 1], t, a, run[j], p);
  }

  /** The clean starts only after the count was seen at zero, and ends with the queue empty. */
  lemma CleanRunsDrained(run: seq<State>, choices: Schedule, i: nat, t: Tid)
    requires IsRun(run, choices) && i < |run| && t < |run[i].pc|
    requires IsClose(run[i].pc[t]) && !run[i].pc[t].WaitDrained?
    ensures var p := run[i].pc[t].p;
            && p < |run[i].ports| && run[i].ports[p].drained && run[i].ports[p].closer == Some(t)
            && (forall u :: 0 <= u < |run[i].pc| ==> !Inside(run[i].pc[u], p))
            && (run[i].pc[t].CleanDone? ==> run[i].ports[p].queue == [])
  {
    RunInv(run, choices, i);
    assert CloserOk(run[i], t);
    assert GateOk(run[i], run[i].pc[t].p);
  }

  /** When a port is closed, no thread is left blocked on it, except one a failed transfer abandoned. */
  lemma CloseLeavesNobodyBlocked(run: seq<State>, choices: Schedule, i: nat, p: Pid, t: Tid)
    requires IsRun(run, choices) && i < |run| && p < |run[i].ports| && run[i].ports[p].life == Closed
    requires t < |run[i].pc| && IsWaiting(run[i].pc[t]) && run[i].pc[t].p == p && t !in run[i].abandoned
    ensures t < |run[i].status| && run[i].status[t] != Blocked(run[i].pc[t].d)
  {
    RunInv(run, choices, i);
    var s := run[i];
    assert WaiterOk(s, t) && GateOk(s, p);
    if s.wait[t].Held? {
      assert CloserOk(s, s.wait[t].owner);
    }
  }

  /** A sender is made ready by the clean only while it waits and with its closed flag already set. */
  lemma CleanFlagsSenders(run: seq<State>, choices: Schedule, i: nat, a: Tid)
    requires IsRun(run, choices) && i < |run| && a < |run[i].pc|
    requires run[i].pc[a].CleanReady? && run[i].pc[a].d == Send
    ensures var s, o := run[i], run[i].pc[a].o;
            && WellFormed(s) && o < |s.pc| && Waiting(s.pc[o], Send, s.pc[a].p)
            && s.closedFlag[o] && (s.status[o] == Blocked(Send) || s.status[o] == Exit)
  {
    RunInv(run, choices, i);
    assert HolderOk(run[i], a) && WaiterOk(run[i], run[i].pc[a].o);
  }

  // ---------------------------------------------------------------------------------------------
  // Delivery
  // ---------------------------------------------------------------------------------------------

  /** In every state of every run, two threads never transfer from the same sender. */
  lemma TransfersNeverOverlap(run: seq<State>, choices: Schedule, i: nat, a: Tid, b: Tid)
    requires IsRun(run, choices) && i < |run| && a < |run[i].pc| && b < |run[i].pc| && a != b
    requires Transfers(run[i].pc[a]) && Transfers(run[i].pc[b])
    ensures Source(a, run[i].pc[a]) != Source(b, run[i].pc[b])
  {
    RunInv(run, choices, i);
    if Source(a, run[i].pc[a]) == Source(b, run[i].pc[b]) {
      TransfersExclusive(run[i], a, b);
    }
  }

  /** The put-back after an exiting receiver always finds the pending slot free. */
  lemma PutBackFindsSlotFree(run: seq<State>, choices: Schedule, i: nat, a: Tid)
    requires IsRun(run, choices) && i < |run| && a < |run[i].pc| && run[i].pc[a].PutBack?
    ensures BoxOf(run[i], Source(a, run[i].pc[a])).pending == None
  {
    RunInv(run, choices, i);
    assert ActorOk(run[i], a);
    assert MailOk(run[i], Source(a, run[i].pc[a]));
  }

  /**
   A sender's messages leave in the order they were queued: those gone for good are a prefix of
   those ever queued, followed by the one in hand, the one in the pending slot and the queue.
   */
  lemma MessagesLeaveInOrder(run: seq<State>, choices: Schedule, i: nat, t: Tid)
    requires IsRun(run, choices) && i < |run| && t < |run[i].pc|
    ensures t < |run[i].box|
    ensures var b := run[i].box[t]; b.sent == Messages(b.done) + InHand(b) + InSlot(b) + b.queue
    ensures forall k, l :: 0 <= k < l < |run[i].box[t].done| ==> run[i].box[t].done[k].0 != run[i].box[t].done[l].0
  {
    RunInv(run, choices, i);
    assert MailOk(run[i], t);
    var b := run[i].box[t];
    forall k, l | 0 <= k < l < |b.done|
      ensures b.done[k].0 != b.done[l].0
    {
      assert b.sent[k] == Messages(b.done)[k] && b.sent[l] == Messages(b.done)[l];
    }
  }

  /** The new entry x of a sender's log says "accepted" only if its receiver was just seen alive. */
  ghost predicate JustAccepted(s: State, t: Tid, x: (Msg, Fate))
  {
    x.1.Accepted? ==>
      && t < |s.pc| && s.pc[t].RecheckReceiver? && x.0 == s.pc[t].m
      && x.1.receiver == ReceiverOf(t, s.pc[t].d, s.pc[t].o) && StatusOf(s, x.1.receiver) != Exit
  }

  /** What a step of t adds to the history: flags stay until their thread looks, logs only grow. */
  ghost predicate LogsGrow(s: State, s': State, t: Tid)
  {
    && |s'.closedFlag| == |s.closedFlag| && |s'.box| == |s.box| && |s'.inbox| == |s.inbox|
    && (forall o :: 0 <= o < |s.closedFlag| && s.closedFlag[o] && !(o == t && t < |s.pc| && s.pc[t].Woken?) ==>
          s'.closedFlag[o])
    && (forall u :: 0 <= u < |s.inbox| ==> s.inbox[u] <= s'.inbox[u])
    && (forall u :: 0 <= u < |s.box| ==>
          && s.box[u].done <= s'.box[u].done && |s'.box[u].done| <= |s.box[u].done| + 1
          && (|s'.box[u].done| > |s.box[u].done| ==> JustAccepted(s, t, s'.box[u].done[|s.box[u].done|])))
  }

  /** The receiver's queue has the message by the time its receiver is looked at again. */
  ghost predicate HandedOver(s: State, a: Tid)
    requires WellFormed(s) && a < |s.pc|
  {
    s.pc[a].RecheckReceiver? ==>
      var r := ReceiverOf(a, s.pc[a].d, s.pc[a].o);
      r < |s.pc| && s.pc[a].m in s.inbox[r]
  }

  ghost predicate Logged(s: State, t: Tid)
    requires WellFormed(s) && t < |s.pc|
  {
    forall k :: 0 <= k < |s.box[t].done| && s.box[t].done[k].1.Accepted? ==>
      s.box[t].done[k].1.receiver < |s.pc| && s.box[t].done[k].0 in s.inbox[s.box[t].done[k].1.receiver]
  }

  ghost predicate LogInv(s: State)
  {
    && WellFormed(s)
    && (forall t :: 0 <= t < |s.pc| ==> HandedOver(s, t))
    && (forall t :: 0 <= t < |s.pc| ==> Logged(s, t))
  }

  /** A step of t that adds to the history and hands nothing over. */
  ghost predicate LogStep(s: State, s': State, t: Tid)
  {
    && WellFormed(s) && t < |s.pc| && LogsGrow(s, s', t) && WellFormed(s') && |s'.pc| == |s.pc| && !s'.pc[t].RecheckReceiver?
    && forall u :: 0 <= u < |s.pc| && u != t ==> s'.pc[u] == s.pc[u]
  }

  lemma LogKept(s: State, s': State, t: Tid)
    requires LogInv(s) && t < |s.pc| && WellFormed(s') && |s'.pc| == |s.pc| && LogsGrow(s, s', t)
    requires forall u :: 0 <= u < |s.pc| && u != t ==> s'.pc[u] == s.pc[u]
    requires HandedOver(s', t)
    ensures LogInv(s')
  {
    assert HandedOver(s, t);
    forall u | 0 <= u < |s.pc|
      ensures HandedOver(s', u) && Logged(s', u)
    {
      assert HandedOver(s, u) && Logged(s, u);
      forall k | 0 <= k < |s'.box[u].done| && s'.box[u].done[k].1.Accepted?
        ensures s'.box[u].done[k].1.receiver < |s.pc|
        ensures s'.box[u].done[k].0 in s'.inbox[s'.box[u].done[k].1.receiver]
      {
        if k < |s.box[u].done| {
          assert s.box[u].done[k] == s'.box[u].done[k];
        } else {
          assert JustAccepted(s, t, s'.box[u].done[k]);
        }
      }
    }
  }

  lemma GateLogs(s: State, t: Tid)
    requires WellFormed(s) && t < |s.pc| && IsGate(s.pc[t])
    ensures LogStep(s, GateStep(s, t, s.pc[t]), t)
  {
  }

  lemma LogGate(s: State, t: Tid)
    requires LogInv(s) && t < |s.pc| && IsGate(s.pc[t])
    ensures LogsGrow(s, GateStep(s, t, s.pc[t]), t) && LogInv(GateStep(s, t, s.pc[t]))
  {
    GateLogs(s, t);
    LogKept(s, GateStep(s, t, s.pc[t]), t);
  }

  lemma TryMatchLogs(s: State, t: Tid, ok: bool)
    requires WellFormed(s) && t < |s.pc| && s.pc[t].TryMatch?
    ensures LogStep(s, MatchStep(s, t, s.pc[t], ok), t)
  {
  }

  lemma CheckStatusLogs(s: State, t: Tid, ok: bool)
    requires WellFormed(s) && t < |s.pc| && s.pc[t].CheckStatus?
    ensures LogStep(s, MatchStep(s, t, s.pc[t], ok), t)
  {
  }

  lemma ClearStaleLogs(s: State, t: Tid, ok: bool)
    requires WellFormed(s) && t < |s.pc| && s.pc[t].ClearStale?
    ensures LogStep(s, MatchStep(s, t, s.pc[t], ok), t)
  {
  }

  lemma ClaimLogs(s: State, t: Tid, ok: bool)
    requires WellFormed(s) && t < |s.pc| && s.pc[t].Claim?
    ensures LogStep(s, MatchStep(s, t, s.pc[t], ok), t)
  {
  }

  lemma MatchLogs(s: State, t: Tid, ok: bool)
    requires WellFormed(s) && t < |s.pc| && IsMatch(s.pc[t])
    ensures LogStep(s, MatchStep(s, t, s.pc[t], ok), t)
  {
    match s.pc[t]
    case TryMatch(_, _) => TryMatchLogs(s, t, ok);
    case CheckStatus(_, _, _) => CheckStatusLogs(s, t, ok);
    case ClearStale(_, _, _) => ClearStaleLogs(s, t, ok);
    case Claim(_, _, _) => ClaimLogs(s, t, ok);
  }

  lemma LogMatch(s: State, t: Tid, ok: bool)
    requires LogInv(s) && t < |s.pc| && IsMatch(s.pc[t])
    ensures LogsGrow(s, MatchStep(s, t, s.pc[t], ok), t) && LogInv(MatchStep(s, t, s.pc[t], ok))
  {
    MatchLogs(s, t, ok);
    LogKept(s, MatchStep(s, t, s.pc[t], ok), t);
  }

  lemma CheckReceiverLogsSend(s: State, t: Tid, ok: bool)
    requires WellFormed(s) && t < |s.pc| && s.pc[t].CheckReceiver? && s.pc[t].d.Send?
    ensures var s' := TakeStep(s, t, s.pc[t], ok);
            && LogsGrow(s, s', t) && WellFormed(s') && |s'.pc| == |s.pc| && !s'.pc[t].RecheckReceiver?
            && forall u :: 0 <= u < |s.pc| && u != t ==> s'.pc[u] == s.pc[u]
  {
  }

  lemma CheckReceiverLogsRecv(s: State, t: Tid, ok: bool)
    requires WellFormed(s) && t < |s.pc| && s.pc[t].CheckReceiver? && s.pc[t].d.Recv?
    ensures var s' := TakeStep(s, t, s.pc[t], ok);
            && LogsGrow(s, s', t) && WellFormed(s') && |s'.pc| == |s.pc| && !s'.pc[t].RecheckReceiver?
            && forall u :: 0 <= u < |s.pc| && u != t ==> s'.pc[u] == s.pc[u]
  {
  }

  lemma CheckReceiverLogs(s: State, t: Tid, ok: bool)
    requires WellFormed(s) && t < |s.pc| && s.pc[t].CheckReceiver?
    ensures var s' := TakeStep(s, t, s.pc[t], ok);
            && LogsGrow(s, s', t) && WellFormed(s') && |s'.pc| == |s.pc| && !s'.pc[t].RecheckReceiver?
            && forall u :: 0 <= u < |s.pc| && u != t ==> s'.pc[u] == s.pc[u]
  {
    if s.pc[t].d.Send? { CheckReceiverLogsSend(s, t, ok); } else { CheckReceiverLogsRecv(s, t, ok); }
  }

  lemma TakePendingLogs(s: State, t: Tid, ok: bool)
    requires WellFormed(s) && t < |s.pc| && s.pc[t].TakePending?
    ensures var s' := TakeStep(s, t, s.pc[t], ok);
            && LogsGrow(s, s', t) && WellFormed(s') && |s'.pc| == |s.pc| && !s'.pc[t].RecheckReceiver?
            && forall u :: 0 <= u < |s.pc| && u != t ==> s'.pc[u] == s.pc[u]
  {
  }

  lemma ProbeLogs(s: State, t: Tid, ok: bool)
    requires WellFormed(s) && t < |s.pc| && IsProbe(s.pc[t])
    ensures var s' := TakeStep(s, t, s.pc[t], ok);
            && LogsGrow(s, s', t) && WellFormed(s') && |s'.pc| == |s.pc| && !s'.pc[t].RecheckReceiver?
            && forall u :: 0 <= u < |s.pc| && u != t ==> s'.pc[u] == s.pc[u]
  {
    match s.pc[t]
    case CheckReceiver(_, _, _) => CheckReceiverLogs(s, t, ok);
    case TakePending(_, _, _) => TakePendingLogs(s, t, ok);
  }

  lemma TakeQueuedLogs(s: State, t: Tid, ok: bool)
    requires WellFormed(s) && t < |s.pc| && s.pc[t].TakeQueued?
    ensures var s' := TakeStep(s, t, s.pc[t], ok);
            && LogsGrow(s, s', t) && WellFormed(s') && |s'.pc| == |s.pc| && !s'.pc[t].RecheckReceiver?
            && forall u :: 0 <= u < |s.pc| && u != t ==> s'.pc[u] == s.pc[u]
  {
  }

  lemma CheckSenderLogsSend(s: State, t: Tid, ok: bool)
    requires WellFormed(s) && t < |s.pc| && s.pc[t].CheckSender? && s.pc[t].d.Send?
    ensures var s' := TakeStep(s, t, s.pc[t], ok);
            && LogsGrow(s, s', t) && WellFormed(s') && |s'.pc| == |s.pc| && !s'.pc[t].RecheckReceiver?
            && forall u :: 0 <= u < |s.pc| && u != t ==> s'.pc[u] == s.pc[u]
  {
  }

  lemma CheckSenderLogsRecv(s: State, t: Tid, ok: bool)
    requires WellFormed(s) && t < |s.pc| && s.pc[t].CheckSender? && s.pc[t].d.Recv?
    ensures var s' := TakeStep(s, t, s.pc[t], ok);
            && LogsGrow(s, s', t) && WellFormed(s') && |s'.pc| == |s.pc| && !s'.pc[t].RecheckReceiver?
            && forall u :: 0 <= u < |s.pc| && u != t ==> s'.pc[u] == s.pc[u]
  {
  }

  lemma CheckSenderLogs(s: State, t: Tid, ok: bool)
    requires WellFormed(s) && t < |s.pc| && s.pc[t].CheckSender?
    ensures var s' := TakeStep(s, t, s.pc[t], ok);
            && LogsGrow(s, s', t) && WellFormed(s') && |s'.pc| == |s.pc| && !s'.pc[t].RecheckReceiver?
            && forall u :: 0 <= u < |s.pc| && u != t ==> s'.pc[u] == s.pc[u]
  {
    if s.pc[t].d.Send? { CheckSenderLogsSend(s, t, ok); } else { CheckSenderLogsRecv(s, t, ok); }
  }

  lemma DeliverLogs(s: State, t: Tid, ok: bool)
    requires WellFormed(s) && t < |s.pc| && s.pc[t].Deliver? && ReceiverOf(t, s.pc[t].d, s.pc[t].o) < |s.pc|
    ensures var s' := GiveStep(s, t, s.pc[t], ok);
            && LogsGrow(s, s', t) && WellFormed(s') && |s'.pc| == |s.pc| && HandedOver(s', t)
            && forall u :: 0 <= u < |s.pc| && u != t ==> s'.pc[u] == s.pc[u]
  {
  }

  lemma RecheckReceiverLogs(s: State, t: Tid, ok: bool)
    requires WellFormed(s) && t < |s.pc| && s.pc[t].RecheckReceiver? && ReceiverOf(t, s.pc[t].d, s.pc[t].o) < |s.pc|
    ensures var s' := GiveStep(s, t, s.pc[t], ok);
            && LogsGrow(s, s', t) && WellFormed(s') && |s'.pc| == |s.pc| && HandedOver(s', t)
            && forall u :: 0 <= u < |s.pc| && u != t ==> s'.pc[u] == s.pc[u]
  {
  }

  lemma HandOverLogs(s: State, t: Tid, ok: bool)
    requires WellFormed(s) && t < |s.pc| && IsHandOver(s.pc[t]) && ReceiverOf(t, s.pc[t].d, s.pc[t].o) < |s.pc|
    ensures var s' := GiveStep(s, t, s.pc[t], ok);
            && LogsGrow(s, s', t) && WellFormed(s') && |s'.pc| == |s.pc| && HandedOver(s', t)
            && forall u :: 0 <= u < |s.pc| && u != t ==> s'.pc[u] == s.pc[u]
  {
    match s.pc[t]
    case Deliver(_, _, _, _) => DeliverLogs(s, t, ok);
    case RecheckReceiver(_, _, _, _) => RecheckReceiverLogs(s, t, ok);
  }

  lemma PutBackLogsSend(s: State, t: Tid, ok: bool)
    requires WellFormed(s) && t < |s.pc| && s.pc[t].PutBack? && s.pc[t].d.Send?
    ensures var s' := GiveStep(s, t, s.pc[t], ok);
            && LogsGrow(s, s', t) && WellFormed(s') && |s'.pc| == |s.pc| && !s'.pc[t].RecheckReceiver?
            && forall u :: 0 <= u < |s.pc| && u != t ==> s'.pc[u] == s.pc[u]
  {
  }

  lemma PutBackLogsRecv(s: State, t: Tid, ok: bool)
    requires WellFormed(s) && t < |s.pc| && s.pc[t].PutBack? && s.pc[t].d.Recv?
    ensures var s' := GiveStep(s, t, s.pc[t], ok);
            && LogsGrow(s, s', t) && WellFormed(s') && |s'.pc| == |s.pc| && !s'.pc[t].RecheckReceiver?
            && forall u :: 0 <= u < |s.pc| && u != t ==> s'.pc[u] == s.pc[u]
  {
  }

  lemma PutBackLogs(s: State, t: Tid, ok: bool)
    requires WellFormed(s) && t < |s.pc| && s.pc[t].PutBack?
    ensures var s' := GiveStep(s, t, s.pc[t], ok);
            && LogsGrow(s, s', t) && WellFormed(s') && |s'.pc| == |s.pc| && !s'.pc[t].RecheckReceiver?
            && forall u :: 0 <= u < |s.pc| && u != t ==> s'.pc[u] == s.pc[u]
  {
    if s.pc[t].d.Send? { PutBackLogsSend(s, t, ok); } else { PutBackLogsRecv(s, t, ok); }
  }

  lemma WakeLogs(s: State, t: Tid, ok: bool)
    requires WellFormed(s) && t < |s.pc| && s.pc[t].Wake?
    ensures var s' := GiveStep(s, t, s.pc[t], ok);
            && LogsGrow(s, s', t) && WellFormed(s') && |s'.pc| == |s.pc| && !s'.pc[t].RecheckReceiver?
            && forall u :: 0 <= u < |s.pc| && u != t ==> s'.pc[u] == s.pc[u]
  {
  }

  lemma BlockLogs(s: State, t: Tid, ok: bool)
    requires WellFormed(s) && t < |s.pc| && IsBlock(s.pc[t])
    ensures LogStep(s, BlockStep(s, t, s.pc[t], ok), t)
  {
  }

  lemma LogBlock(s: State, t: Tid, ok: bool)
    requires LogInv(s) && t < |s.pc| && IsBlock(s.pc[t])
    ensures LogsGrow(s, BlockStep(s, t, s.pc[t], ok), t) && LogInv(BlockStep(s, t, s.pc[t], ok))
  {
    BlockLogs(s, t, ok);
    LogKept(s, BlockStep(s, t, s.pc[t], ok), t);
  }

  lemma OrphanLogs(s: State, t: Tid)
    requires WellFormed(s) && t < |s.pc| && IsOrphan(s.pc[t])
    ensures LogStep(s, OrphanStep(s, t, s.pc[t]), t)
  {
  }

  lemma LogOrphan(s: State, t: Tid)
    requires LogInv(s) && t < |s.pc| && IsOrphan(s.pc[t])
    ensures LogsGrow(s, OrphanStep(s, t, s.pc[t]), t) && LogInv(OrphanStep(s, t, s.pc[t]))
  {
    OrphanLogs(s, t);
    LogKept(s, OrphanStep(s, t, s.pc[t]), t);
  }

  lemma ClosePortLogs(s: State, t: Tid)
    requires WellFormed(s) && t < |s.pc| && (s.pc[t].WaitDrained? || s.pc[t].CleanNext? || s.pc[t].CleanDone?)
    ensures LogStep(s, CloseStep(s, t, s.pc[t]), t)
  {
  }

  lemma LogClosePort(s: State, t: Tid)
    requires LogInv(s) && t < |s.pc| && (s.pc[t].WaitDrained? || s.pc[t].CleanNext? || s.pc[t].CleanDone?)
    ensures LogsGrow(s, CloseStep(s, t, s.pc[t]), t) && LogInv(CloseStep(s, t, s.pc[t]))
  {
    ClosePortLogs(s, t);
    LogKept(s, CloseStep(s, t, s.pc[t]), t);
  }

  lemma CleanLogs(s: State, t: Tid)
    requires WellFormed(s) && t < |s.pc| && (s.pc[t].CleanStatus? || s.pc[t].CleanPortPtr? || s.pc[t].CleanFlag? || s.pc[t].CleanReady?)
    ensures LogStep(s, CloseStep(s, t, s.pc[t]), t)
  {
  }

  lemma LogClean(s: State, t: Tid)
    requires LogInv(s) && t < |s.pc|
    requires s.pc[t].CleanStatus? || s.pc[t].CleanPortPtr? || s.pc[t].CleanFlag? || s.pc[t].CleanReady?
    ensures LogsGrow(s, CloseStep(s, t, s.pc[t]), t) && LogInv(CloseStep(s, t, s.pc[t]))
  {
    CleanLogs(s, t);
    LogKept(s, CloseStep(s, t, s.pc[t]), t);
  }

  lemma CallLogs(s: State, t: Tid, a: Action)
    requires WellFormed(s) && Enabled(s, t, a) && !a.Advance?
    ensures var s' := Apply(s, t, a);
            && LogsGrow(s, s', t) && WellFormed(s') && |s'.pc| == |s.pc| && (s'.pc[t].RecheckReceiver? ==> s'.pc[t] == s.pc[t] && s'.inbox == s.inbox)
            && forall u :: 0 <= u < |s.pc| && u != t ==> s'.pc[u] == s.pc[u]
  {
  }

  lemma LogCall(s: State, t: Tid, a: Action)
    requires LogInv(s) && Enabled(s, t, a) && !a.Advance?
    ensures LogsGrow(s, Apply(s, t, a), t) && LogInv(Apply(s, t, a))
  {
    assert HandedOver(s, t);
    CallLogs(s, t, a);
    LogKept(s, Apply(s, t, a), t);
  }

  lemma LogApply(s: State, t: Tid, a: Action)
    requires LogInv(s) && WaitInv(s) && Enabled(s, t, a)
    ensures LogsGrow(s, Apply(s, t, a), t) && LogInv(Apply(s, t, a))
  {
    if a.Advance? {
      var pc := s.pc[t];
      assert HolderOk(s, t);
      if IsGate(pc) { LogGate(s, t); }
      else if IsMatch(pc) { LogMatch(s, t, a.ok); }
      else if IsTake(pc) {
        if pc.TakeQueued? { TakeQueuedLogs(s, t, a.ok); }
        else if pc.CheckSender? { CheckSenderLogs(s, t, a.ok); }
        else { ProbeLogs(s, t, a.ok); }
        LogKept(s, TakeStep(s, t, pc, a.ok), t);
      }
      else if IsHandOver(pc) { HandOverLogs(s, t, a.ok); LogKept(s, GiveStep(s, t, pc, a.ok), t); }
      else if IsSettle(pc) {
        if pc.PutBack? { PutBackLogs(s, t, a.ok); } else { WakeLogs(s, t, a.ok); }
        LogKept(s, GiveStep(s, t, pc, a.ok), t);
      }
      else if IsBlock(pc) { LogBlock(s, t, a.ok); }
      else if IsOrphan(pc) { LogOrphan(s, t); }
      else if pc.WaitDrained? || pc.CleanNext? || pc.CleanDone? { LogClosePort(s, t); }
      else { LogClean(s, t); }
    } else {
      LogCall(s, t, a);
    }
  }

  lemma InitLogInv(s: State)
    requires Init(s)
    ensures LogInv(s)
  {
  }

  lemma {:induction false} RunLogInv(run: seq<State>, choices: Schedule, i: nat)
    requires IsRun(run, choices) && i < |run|
    ensures LogInv(run[i])
  {
    if i == 0 {
      InitLogInv(run[0]);
    } else {
      RunLogInv(run, choices, i - 1);
      RunInv(run, choices, i - 1);
      LogApply(run[i - 1], choices[i - 1].0, choices[i - 1].1);
    }
  }

  /** A message recorded as accepted was put into its receiver's queue. */
  lemma AcceptedIsDelivered(run: seq<State>, choices: Schedule, i: nat, t: Tid, k: nat)
    requires IsRun(run, choices) && i < |run| && t < |run[i].box| && k < |run[i].box[t].done|
    requires run[i].box[t].done[k].1.Accepted?
    ensures var (m, fate) := run[i].box[t].done[k];
            fate.receiver < |run[i].inbox| && m in run[i].inbox[fate.receiver]
  {
    RunLogInv(run, choices, i);
    assert Logged(run[i], t);
  }

  /**
   A message is accepted when, and only when, its receiver is seen not exiting after the hand-over,
   and what a log says stays in it. With the order of departure this means that a queued message
   reaches at most one receiver that is not exiting at the re-check.
   */
  lemma AcceptedOnlyAlive(run: seq<State>, choices: Schedule, i: nat, u: Tid)
    requires IsRun(run, choices) && i < |choices| && u < |run[i].box|
    ensures u < |run[i + 1].box| && run[i].box[u].done <= run[i + 1].box[u].done
    ensures |run[i + 1].box[u].done| <= |run[i].box[u].done| + 1
    ensures |run[i + 1].box[u].done| > |run[i].box[u].done| ==>
              JustAccepted(run[i], choices[i].0, run[i + 1].box[u].done[|run[i].box[u].done|])
  {
    RunInv(run, choices, i);
    RunLogInv(run, choices, i);
    LogApply(run[i], choices[i].0, choices[i].1);
  }

  /** The closed flag stays until its thread, back from sleep, looks at it. */
  lemma FlagStays(run: seq<State>, choices: Schedule, i: nat, o: Tid)
    requires IsRun(run, choices) && i < |choices| && o < |run[i].closedFlag| && run[i].closedFlag[o]
    requires o < |run[i].pc| && !run[i].pc[o].Woken?
    ensures o < |run[i + 1].closedFlag| && run[i + 1].closedFlag[o]
  {
    RunInv(run, choices, i);
    RunLogInv(run, choices, i);
    LogApply(run[i], choices[i].0, choices[i].1);
  }
}

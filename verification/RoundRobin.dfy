/** task_manager.c, thread_boot.c: the ring of threads of one processor and round-robin choice. */
module RoundRobin {

  datatype Status = Init | Running | Ready | Zombie | BlockedOnSend | BlockedOnReceive | Exit

  /** How many links lead from position i to position j of a ring of n, at least one. */
  function Distance(i: nat, j: nat, n: nat): nat
    requires i < n && j < n
  {
    if j > i then j - i else j + n - i
  }

  /** Position after d links. */
  function Ahead(i: nat, d: nat, n: nat): (j: nat)
    requires i < n && d <= n
    ensures j < n
  {
    if i + d < n then i + d else i + d - n
  }

  /** j is the first ready position after i, going around. */
  ghost predicate FirstReady(ring: seq<nat>, status: map<nat, Status>, i: nat, j: nat)
  {
    && i < |ring| && j < |ring| && IsReady(ring, status, j)
    && forall d :: 1 <= d < Distance(i, j, |ring|) ==> !IsReady(ring, status, Ahead(i, d, |ring|))
  }

  predicate IsReady(ring: seq<nat>, status: map<nat, Status>, j: nat)
  {
    j < |ring| && ring[j] in status && status[ring[j]] == Ready
  }

  /**
   The walk of round_robin_schedule over the links of the list: from the current thread on, past the list head
   and past threads that are not ready. It ends because some thread in the ring is ready.
   */
  method Scan(ring: seq<nat>, status: map<nat, Status>, current: nat) returns (j: nat)
    requires current < |ring| && exists r :: 0 <= r < |ring| && IsReady(ring, status, r)
    ensures FirstReady(ring, status, current, j)
  {
    ghost var r :| 0 <= r < |ring| && IsReady(ring, status, r);
    // position |ring| is the list head
    var next := current + 1;
    ghost var passed := 0;
    while next == |ring| || !IsReady(ring, status, next)
      invariant 0 <= next <= |ring| && 0 <= passed < Distance(current, r, |ring|)
      invariant next < |ring| ==> next == Ahead(current, passed + 1, |ring|)
      invariant next == |ring| ==> current + passed + 1 == |ring|
      invariant forall d :: 1 <= d <= passed ==> !IsReady(ring, status, Ahead(current, d, |ring|))
      decreases Distance(current, r, |ring|) - passed, if next == |ring| then 1 else 0
    {
      if next == |ring| {
        next := 0;
      } else {
        passed, next := passed + 1, next + 1;
      }
    }
    j := next;
  }

  /** A thread that is ready is never passed: each choice is the thread itself or nearer to it. */
  lemma Nearer(ring: seq<nat>, status: map<nat, Status>, i: nat, j: nat, t: nat)
    requires FirstReady(ring, status, i, j) && t < |ring| && IsReady(ring, status, t)
    ensures j == t || Distance(j, t, |ring|) < Distance(i, t, |ring|)
  {
    var d := Distance(i, t, |ring|);
    assert Ahead(i, d, |ring|) == t;
  }

  ghost predicate NoDuplicates(ring: seq<nat>)
  {
    forall i, j :: 0 <= i < j < |ring| ==> ring[i] != ring[j]
  }

  /** The position of a thread in the ring. */
  function IndexOf(ring: seq<nat>, t: nat): (i: nat)
    requires t in ring
    ensures i < |ring| && ring[i] == t
  {
    if ring[0] == t then 0 else IndexOf(ring[1..], t) + 1
  }

  lemma IndexUnique(ring: seq<nat>, j: nat)
    requires NoDuplicates(ring) && j < |ring|
    ensures ring[j] in ring && IndexOf(ring, ring[j]) == j
  {
  }

  /** A call of schedule: the current thread and the statuses before and after, whether the switch of address space succeeds, and whether the caller was asked to exit. */
  datatype Call = Call(current: nat, status: map<nat, Status>, spaceOk: bool, exiting: bool, next: nat, after: map<nat, Status>)

  /** The statuses the choice is made on: the current thread has been made ready, if it was running. */
  function Seen(c: Call): map<nat, Status>
  {
    if c.current in c.status && c.status[c.current] == Running then c.status[c.current := Ready] else c.status
  }

  ghost predicate Outcome(ring: seq<nat>, c: Call)
  {
    && c.current in ring && c.current in c.status
    && exists j :: 0 <= j < |ring| && FirstReady(ring, Seen(c), IndexOf(ring, c.current), j) && OutcomeAt(ring, c, j)
  }

  /** Thread j of the ring is chosen, and becomes the current one if the switch of address space succeeds. */
  predicate OutcomeAt(ring: seq<nat>, c: Call, j: nat)
    requires j < |ring| && c.current in c.status
  {
    var seen := Seen(c);
    && c.next == (if c.spaceOk then ring[j] else c.current)
    && (c.next != c.current ==>
          c.after == (if c.exiting && seen[c.current] == Ready then seen[c.current := Zombie] else seen)[c.next := Running])
    && (c.next == c.current ==> c.after == if seen[c.current] == Ready then seen[c.current := Running] else seen)
  }

  /** Successive calls over a fixed ring; between them statuses change in any way. */
  ghost predicate IsRun(ring: seq<nat>, calls: seq<Call>)
  {
    && (forall i :: 0 <= i < |calls| ==> Outcome(ring, calls[i]))
    && (forall i :: 0 <= i < |calls| - 1 ==> calls[i + 1].current == calls[i].next)
  }

  /** How many of the calls switch address space successfully. */
  function Succeeded(calls: seq<Call>): nat
  {
    if calls == [] then 0 else (if calls[0].spaceOk then 1 else 0) + Succeeded(calls[1..])
  }

  lemma SucceededAfter(calls: seq<Call>, k: nat)
    requires k < |calls|
    ensures Succeeded(calls[..k + 1]) == (if calls[0].spaceOk then 1 else 0) + Succeeded(calls[1..][..k])
  {
    assert calls[..k + 1][1..] == calls[1..][..k];
  }

  /** One call brings a ready thread nearer, unless it fails or chooses the thread. */
  lemma CallNearer(ring: seq<nat>, c: Call, t: nat)
    requires NoDuplicates(ring) && Outcome(ring, c) && t < |ring| && IsReady(ring, Seen(c), t)
    ensures c.next in ring && (!c.spaceOk ==> c.next == c.current)
    ensures c.spaceOk && c.next != ring[t] ==> Distance(IndexOf(ring, c.next), t, |ring|) < Distance(IndexOf(ring, c.current), t, |ring|)
  {
    var j :| 0 <= j < |ring| && FirstReady(ring, Seen(c), IndexOf(ring, c.current), j) && OutcomeAt(ring, c, j);
    Nearer(ring, Seen(c), IndexOf(ring, c.current), j, t);
    IndexUnique(ring, j);
  }

  /** A thread that stays ready is the current one after at most one ring length of calls whose switch succeeds. */
  lemma {:induction false} ChosenInTime(ring: seq<nat>, calls: seq<Call>, t: nat) returns (k: nat)
    requires NoDuplicates(ring) && IsRun(ring, calls) && t < |ring| && |calls| > 0 && calls[0].current in ring
    requires Succeeded(calls) >= Distance(IndexOf(ring, calls[0].current), t, |ring|)
    requires forall i :: 0 <= i < |calls| ==> IsReady(ring, Seen(calls[i]), t)
    ensures k < |calls| && calls[k].spaceOk && calls[k].next == ring[t]
    ensures Succeeded(calls[..k + 1]) <= Distance(IndexOf(ring, calls[0].current), t, |ring|) <= |ring|
    decreases |calls|
  {
    var c, rest := calls[0], calls[1..];
    CallNearer(ring, c, t);
    if c.spaceOk && c.next == ring[t] {
      k := 0;
      assert calls[..1][1..] == [];
    } else {
      assert rest != [] && rest[0].current == c.next;
      forall i | 0 <= i < |rest|
        ensures Outcome(ring, rest[i]) && IsReady(ring, Seen(rest[i]), t)
      {
        assert rest[i] == calls[i + 1];
      }
      k := ChosenInTime(ring, rest, t);
      SucceededAfter(calls, k + 1);
      k := k + 1;
    }
  }

  /** One processor's threads. */
  class TaskManager {
    var ring: seq<nat>
    var current: nat
    var status: map<nat, Status>
    const idle: nat

    /** The current and the idle thread are linked; the idle thread is ready unless it is the one running. */
    ghost predicate Valid()
      reads this
    {
      && NoDuplicates(ring) && current in ring && idle in ring
      && (forall t :: t in ring ==> t in status)
      && (status[idle] == Ready || (status[idle] == Running && current == idle))
    }

    constructor (boot: nat, idleThread: nat)
      requires boot != idleThread
      ensures Valid() && ring == [boot, idleThread] && current == idleThread && idle == idleThread
    {
      idle := idleThread;
      ring, current, status := [boot, idleThread], idleThread, map[boot := Ready, idleThread := Running];
    }

    /** thread_set_status_with_expect. */
    method SetStatus(t: nat, from: Status, to: Status)
      requires t in status
      modifies this`status
      ensures status == if old(status)[t] == from then old(status)[t := to] else old(status)
    {
      if status[t] == from {
        status := status[t := to];
      }
    }

    /** schedule; `spaceOk` tells whether the switch of address space succeeds, `exiting` whether the caller was asked to exit. */
    method Schedule(spaceOk: bool, exiting: bool)
      requires Valid() && (exiting ==> current != idle)
      modifies this`current, this`status
      ensures Valid()
      ensures Outcome(ring, Call(old(current), old(status), spaceOk, exiting, current, status))
    {
      var curr := current;
      SetStatus(curr, Running, Ready);
      ghost var seen := status;
      assert IsReady(ring, status, IndexOf(ring, idle));
      var j := Scan(ring, status, IndexOf(ring, curr));
      if ring[j] == curr || !spaceOk {
        SetStatus(curr, Ready, Running);
        ghost var c := Call(curr, old(status), spaceOk, exiting, current, status);
        assert Seen(c) == seen && OutcomeAt(ring, c, j);
        return;
      }
      if exiting {
        SetStatus(curr, Ready, Zombie);
      }
      status := status[ring[j] := Running];
      current := ring[j];
      ghost var c := Call(curr, old(status), spaceOk, exiting, current, status);
      assert Seen(c) == seen && OutcomeAt(ring, c, j);
    }

    /** add_thread_to_manager. */
    method Add(t: nat) returns (ok: bool)
      requires Valid()
      modifies this`ring, this`status
      ensures Valid() && (ok <==> t !in old(ring))
      ensures !ok ==> ring == old(ring) && status == old(status)
      ensures ok ==> ring == old(ring) + [t]
      ensures ok ==> status == if t in old(status) && old(status)[t] != Init then old(status) else old(status)[t := Ready]
    {
      if t in ring {
        return false;
      }
      ok := true;
      ring := ring + [t];
      if t !in status {
        status := status[t := Init];
      }
      SetStatus(t, Init, Ready);
    }

    /** del_thread_from_manager: the current thread has to be switched away from first. */
    method Remove(t: nat) returns (again: bool)
      requires Valid() && t != idle
      modifies this`ring
      ensures Valid() && (again <==> t == current)
      ensures again || t !in old(ring) ==> ring == old(ring)
      ensures !again && t in old(ring) ==> ring == Without(old(ring), IndexOf(old(ring), t)) && t !in ring
    {
      if current == t {
        return true;
      }
      if t in ring {
        WithoutKeeps(ring, IndexOf(ring, t));
        ring := Without(ring, IndexOf(ring, t));
      }
      return false;
    }
  }

  function Without(ring: seq<nat>, i: nat): seq<nat>
    requires i < |ring|
  {
    ring[..i] + ring[i + 1..]
  }

  lemma WithoutKeeps(ring: seq<nat>, i: nat)
    requires i < |ring| && NoDuplicates(ring)
    ensures NoDuplicates(Without(ring, i))
    ensures forall t :: t in Without(ring, i) <==> t in ring && t != ring[i]
  {
    forall t
      ensures t in Without(ring, i) <==> t in ring && t != ring[i]
    {
      if t in ring && t != ring[i] {
        var j :| 0 <= j < |ring| && ring[j] == t;
        assert Without(ring, i)[if j < i then j else j - 1] == t;
      }
    }
  }
}

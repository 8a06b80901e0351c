/**
 * The kernel primitives of src/k_process.c and src/k_memory.c as functions
 * of the scheduling state: what sending a message, blocking for a message
 * or a memory block, releasing a memory block and changing a priority do
 * to the PCB fields and the two queues. The Kernel class's methods are
 * specified by these functions, and the lemmas here show that each keeps
 * the scheduling invariant.
 */
module Primitives {
  import opened Rtx
  import opened Chains
  import opened PriorityQueue
  import opened Scheduling

  /** Both queues agree with the level recorded for each pid, and no level holds a pid twice. */
  ghost predicate Coherent(s: Sched) {
    Tags(s.ready, s.rl) && Tags(s.blocked, s.bl) && Unrepeated(s.ready) && Unrepeated(s.blocked)
  }

  /** A process that is on neither queue is put at the back of its level of the ready queue (pq_push_ready) as READY. */
  function Wake(s: Sched, pid: int): (r: Sched)
    requires Sized(s) && IsPid(pid) && HIGH <= s.priority[pid] <= HIDDEN
    ensures Sized(r)
  {
    RequeueQueued(s.ready, pid, s.priority[pid], false);
    s.(state := s.state[pid := Ready], ready := Requeue(s.ready, pid, s.priority[pid], false),
       rl := s.rl[pid := s.priority[pid]])
  }

  /** Waking a process that is on no level of the ready queue keeps the queues coherent. */
  lemma WakeCoherent(s: Sched, pid: int)
    requires Sized(s) && Coherent(s) && IsPid(pid) && HIGH <= s.priority[pid] <= HIDDEN && s.rl[pid] == NULL
    ensures Coherent(Wake(s, pid))
  {
    RequeueTags(s.ready, s.rl, pid, s.priority[pid], false);
    var q := s.ready[s.priority[pid]];
    forall i | 0 <= i < |q|
      ensures q[i] != pid
    {
    }
    var r := Wake(s, pid).ready;
    forall k | 0 <= k < |r|
      ensures Distinct(r[k])
    {
      if k == s.priority[pid] {
        assert r[k] == q + [pid];
      }
    }
  }

  /** Waking a process blocked on a message keeps the scheduling invariant. */
  lemma WakeSteady(s: Sched, pid: int)
    requires Sized(s) && Steady(s) && IsPid(pid) && s.state[pid] == BlockedMsg
    ensures Steady(Wake(s, pid))
  {
  }

  /** The delivery half of k_send_message: a receiver blocked on a message is woken; any other is left alone. */
  function Deliver(s: Sched, pid: int): (r: Sched)
    requires Sized(s) && IsPid(pid)
    requires s.state[pid] == BlockedMsg ==> s.priority[pid] != INTERRUPT
    ensures Sized(r) && r.priority == s.priority && r.current == s.current && r.used == s.used
    ensures forall p :: 0 <= p < NUM_PROCS && r.state[p] == BlockedMsg ==> p != pid && s.state[p] == BlockedMsg
  {
    if s.state[pid] == BlockedMsg then Wake(s, pid) else s
  }

  /** k_send_message yields after waking the receiver when it outranks the sender and the sender is not an interrupt process. */
  predicate Preempts(s: Sched, pid: int)
    requires |s.priority| == NUM_PROCS && IsPid(s.current) && IsPid(pid)
  {
    s.priority[pid] < s.priority[s.current] && s.priority[s.current] != INTERRUPT
  }

  /** k_send_message once the message is in the receiver's mailbox: the delivery, then the yield if the woken receiver preempts. */
  function Send(s: Sched, pid: int): (r: (int, Sched))
    requires Sized(s) && IsPid(s.current) && IsPid(pid)
    requires s.state[pid] == BlockedMsg ==> s.priority[pid] != INTERRUPT
    ensures Sized(r.1)
  {
    var s1 := Deliver(s, pid);
    if s.state[pid] == BlockedMsg && Preempts(s, pid) then Release(s1) else (RTX_OK, s1)
  }

  /**
   * k_send_message from a running process: it always returns RTX_OK and
   * keeps the scheduling invariant. A receiver that was not blocked on a
   * message is left alone. A receiver blocked on a message becomes READY at
   * the back of its level; if it does not outrank the sender, or the sender
   * is an interrupt process, the sender keeps the processor.
   */
  lemma SendKeeps(s: Sched, pid: int)
    requires Sized(s) && Coherent(s) && Steady(s) && IsPid(s.current) && IsPid(pid)
    ensures var (r, s') := Send(s, pid);
      && r == RTX_OK && Steady(s')
      && (s.state[pid] != BlockedMsg ==> s' == s)
      && (s.state[pid] == BlockedMsg && !Preempts(s, pid) ==>
            && s'.current == s.current && s'.state == s.state[pid := Ready]
            && s'.ready[s.priority[pid]] == s.ready[s.priority[pid]] + [pid])
  {
    if s.state[pid] == BlockedMsg {
      WakeCoherent(s, pid);
      WakeSteady(s, pid);
      if Preempts(s, pid) {
        ReleaseKeeps(Wake(s, pid));
      }
    }
  }

  /**
   * A receiver woken by k_send_message that outranks the sender preempts
   * it: with no interrupt pending, the sender goes back to READY and a
   * process at least as urgent as the receiver runs.
   */
  lemma SendPreempts(s: Sched, pid: int)
    requires Sized(s) && Coherent(s) && Steady(s) && IsPid(s.current) && IsPid(pid)
    requires s.state[pid] == BlockedMsg && Preempts(s, pid) && !s.timerPending && !s.uartPending
    ensures var s' := Send(s, pid).1;
      && s'.current != s.current && s'.state[s.current] == Ready && s'.state[pid] != BlockedMsg
      && s.priority[s'.current] <= s.priority[pid]
  {
    var s1 := Wake(s, pid);
    WakeCoherent(s, pid);
    WakeSteady(s, pid);
    assert pid in s1.ready[s.priority[pid]];
    OutrankedYields(s1, pid);
    assert Send(s, pid) == Release(s1);
  }

  /**
   * A yield with no interrupt pending by a running process that a queued
   * process outranks hands the processor to a process at least as urgent
   * as that one, and the yielding process goes back to READY.
   */
  lemma OutrankedYields(s: Sched, pid: int)
    requires Sized(s) && Coherent(s) && Steady(s) && IsPid(s.current) && IsPid(pid)
    requires s.priority[pid] < s.priority[s.current] && s.priority[s.current] != INTERRUPT
    requires pid in s.ready[s.priority[pid]] && !s.timerPending && !s.uartPending
    ensures var s' := Release(s).1;
      && IsPid(s'.current) && s'.current != s.current && s'.state[s.current] == Ready
      && s.priority[s'.current] <= s.priority[pid]
  {
    var c := s.current;
    ReleaseKeeps(s);
    var p := s.priority[pid];
    var q := Requeued(s.ready, c, s.state, s.priority, false, false);
    assert q[p] == s.ready[p] && pid in q[p];
    var f := FirstNonEmpty(q);
    assert f <= p;
    var next := q[f][0];
    assert next in s.ready[f];
    assert s.rl[next] == f;
  }

  /* ---------------------------------------------------------------- */
  /* Blocking for a message                                            */
  /* ---------------------------------------------------------------- */

  /** k_receive_message finding the caller's mailbox empty: the caller becomes BLOCKED_MSG and yields. */
  function AwaitMessage(s: Sched): (r: (int, Sched))
    requires Sized(s) && IsPid(s.current)
    ensures Sized(r.1)
  {
    Release(s.(state := s.state[s.current := BlockedMsg]))
  }

  /**
   * A process that blocks for a message gives up the processor to another
   * process and stays BLOCKED_MSG, on neither queue, and the scheduling
   * invariant holds again. The null process and the interrupt processes
   * never block.
   */
  lemma AwaitMessageKeeps(s: Sched)
    requires Sized(s) && Coherent(s) && Steady(s) && IsPid(s.current)
    requires s.current != PID_NULL && s.priority[s.current] != INTERRUPT
    ensures var (r, s') := AwaitMessage(s);
      && r == RTX_OK && Steady(s') && s'.current != s.current
      && s'.state[s.current] == BlockedMsg && s'.rl[s.current] == NULL && s'.bl[s.current] == NULL
  {
    var c := s.current;
    var s1 := s.(state := s.state[c := BlockedMsg]);
    assert Yielding(s1);
    ReleaseKeeps(s1);
  }

  /* ---------------------------------------------------------------- */
  /* Blocking for and releasing a memory block                         */
  /* ---------------------------------------------------------------- */

  /**
   * k_request_memory_block finding the free list empty, as the blocked
   * queue needs it: the caller becomes BLOCKED_MEMORY, goes to the back of
   * its level of the blocked queue (pq_push_blocked) and yields. The source
   * leaves out the push; that is AwaitMemoryAsWritten.
   */
  function AwaitMemory(s: Sched): (r: (int, Sched))
    requires Sized(s) && IsPid(s.current) && s.priority[s.current] <= HIDDEN
    ensures Sized(r.1)
  {
    Release(Shelve(s))
  }

  /** The current process, BLOCKED_MEMORY, at the back of its level of the blocked queue (pq_push_blocked). */
  function Shelve(s: Sched): (r: Sched)
    requires Sized(s) && IsPid(s.current) && s.priority[s.current] <= HIDDEN
    ensures Sized(r) && r == s.(state := r.state, blocked := r.blocked, bl := r.bl)
  {
    var c, p := s.current, s.priority[s.current];
    RequeueQueued(s.blocked, c, p, false);
    s.(state := s.state[c := BlockedMemory], blocked := Requeue(s.blocked, c, p, false), bl := s.bl[c := p])
  }

  /**
   * A process that blocks for memory gives up the processor, stays
   * BLOCKED_MEMORY and waits at the back of its level of the blocked queue,
   * and the scheduling invariant holds again.
   */
  lemma AwaitMemoryKeeps(s: Sched)
    requires Sized(s) && Coherent(s) && Steady(s) && IsPid(s.current)
    requires s.current != PID_NULL && s.priority[s.current] != INTERRUPT
    ensures var (r, s') := AwaitMemory(s);
      var c, p := s.current, s.priority[s.current];
      && s.bl[c] == NULL && p <= HIDDEN
      && r == RTX_OK && Steady(s') && s'.current != c && s'.state[c] == BlockedMemory
      && s'.blocked[p] == s.blocked[p] + [c] && s'.bl[c] == p
  {
    var c := s.current;
    var p := s.priority[c];
    var s1 := Shelve(s);
    assert Yielding(s1);
    ReleaseKeeps(s1);
  }

  /** k_request_memory_block finding the free list empty, as written: the caller becomes BLOCKED_MEMORY and yields, and no queue holds it. */
  function AwaitMemoryAsWritten(s: Sched): (r: (int, Sched))
    requires Sized(s) && IsPid(s.current)
    ensures Sized(r.1)
  {
    Release(s.(state := s.state[s.current := BlockedMemory]))
  }

  /** Process c waits for memory but neither queue holds it, so nothing can wake it. */
  ghost predicate Stranded(s: Sched, c: int)
    requires Sized(s) && IsPid(c)
  {
    s.state[c] == BlockedMemory && Scheduling.Unqueued(s.ready, c) && Scheduling.Unqueued(s.blocked, c)
  }

  /** `scheduler` neither picks nor re-queues a stranded process other than the two interrupt processes. */
  lemma ScheduleStranded(s: Sched, c: int)
    requires Sized(s) && IsPid(c) && Stranded(s, c) && c != PID_TIMER_IPROC && c != PID_UART_IPROC
    ensures Schedule(s).0 != c && Stranded(Schedule(s).1, c)
  {
    var tp, up := s.timerPending, s.uartPending;
    var q := Requeued(s.ready, s.current, s.state, s.priority, tp, up);
    assert !Requeues(c, s.state, s.priority);
    assert Scheduling.Unqueued(q, c);
    if !tp && !up {
      var f := FirstNonEmpty(q);
      if f < |q| {
        assert q[f][0] in q[f];
        forall i | 0 <= i < |q[f]| - 1
          ensures q[f][1..][i] != c
        {
          assert q[f][1..][i] == q[f][i + 1];
        }
      }
    }
  }

  /** A stranded process other than the two interrupt processes stays stranded across k_release_processor. */
  lemma ReleaseStranded(s: Sched, c: int)
    requires Sized(s) && IsPid(c) && Stranded(s, c) && c != PID_TIMER_IPROC && c != PID_UART_IPROC
    ensures Stranded(Release(s).1, c)
  {
    ScheduleStranded(s, c);
    var (next, s1) := Schedule(s);
    if next != NULL {
      var prev := if s.current == NULL then next else s.current;
      var s2 := Switch(s1.(current := next), prev).1;
      assert s2.state == s1.state || s2.state == Switched(s1.state, prev, next);
    }
  }

  /**
   * As written, a process that finds the free list empty is stranded: it
   * is BLOCKED_MEMORY but on neither queue.
   */
  lemma AwaitMemoryAsWrittenStrands(s: Sched)
    requires Sized(s) && Coherent(s) && Steady(s) && IsPid(s.current) && s.priority[s.current] != INTERRUPT
    ensures Stranded(AwaitMemoryAsWritten(s).1, s.current)
  {
    var c := s.current;
    forall k, i | 0 <= k < NUM_PRIORITIES && 0 <= i < |s.ready[k]|
      ensures s.ready[k][i] != c
    {
    }
    forall k, i | 0 <= k < NUM_PRIORITIES && 0 <= i < |s.blocked[k]|
      ensures s.blocked[k][i] != c
    {
    }
    ReleaseStranded(s.(state := s.state[c := BlockedMemory]), c);
  }

  /**
   * As written, the UART interrupt process calling k_request_memory_block
   * on an empty free list is made BLOCKED_MEMORY and yields, and stays
   * BLOCKED_MEMORY whichever process runs next.
   */
  lemma UartAwaitMemoryAsWritten(s: Sched)
    requires Sized(s) && s.current == PID_UART_IPROC
    ensures AwaitMemoryAsWritten(s).1.state[PID_UART_IPROC] == BlockedMemory
  {
    var s0 := s.(state := s.state[PID_UART_IPROC := BlockedMemory]);
    var (next, s1) := Schedule(s0);
    if next != NULL && next != PID_UART_IPROC {
      assert Switch(s1.(current := next), PID_UART_IPROC).1.state[PID_UART_IPROC] == Park(BlockedMemory);
    }
  }

  /**
   * Once the UART interrupt process is BLOCKED_MEMORY, a UART interrupt is
   * lost: `scheduler` picks the i-process for its flag and clears the
   * flag, process_switch refuses the i-process, and the interrupted
   * process carries on with every process state as it was.
   */
  lemma ReleaseRefusesBlockedUart(s: Sched)
    requires Sized(s) && IsPid(s.current) && s.current != PID_UART_IPROC
    requires s.state[PID_UART_IPROC] == BlockedMemory && s.uartPending && !s.timerPending
    ensures var (r, s') := Release(s);
      r == RTX_OK && s'.current == s.current && s'.state == s.state && !s'.uartPending
  {
  }

  /** Every process the blocked queue holds is there at its own priority. */
  ghost predicate AtOwnLevels(s: Sched)
    requires Sized(s)
  {
    forall p :: 0 <= p < NUM_PROCS && s.bl[p] != NULL ==> s.bl[p] == s.priority[p]
  }

  /** The process pq_pop_blocked returns is a pid waiting at its own priority, the highest of all waiting. */
  lemma PopBlockedLevel(s: Sched)
    requires Sized(s) && Tags(s.blocked, s.bl) && AtOwnLevels(s)
    ensures var w := PopHighest(s.blocked).0;
      && (w == NULL <==> forall k :: 0 <= k < NUM_PRIORITIES ==> s.blocked[k] == [])
      && (w != NULL ==> IsPid(w) && s.bl[w] == s.priority[w] == FirstNonEmpty(s.blocked) && w in s.blocked[s.priority[w]])
      && Queued(PopHighest(s.blocked).1)
  {
    PickQueued(s.blocked, false, false);
    var f := FirstNonEmpty(s.blocked);
    if f < NUM_PRIORITIES {
      assert s.blocked[f][0] in s.blocked[f];
    }
  }

  /**
   * The first half of k_release_memory_block's effect on the processes:
   * pq_pop_blocked takes the longest-waiting process of the highest
   * priority level of the blocked queue, and if there is one it becomes
   * READY and goes to the back of its level of the ready queue. Returns the
   * woken process, or NULL with nothing changed.
   */
  function Unblock(s: Sched): (r: (int, Sched))
    requires Sized(s) && Tags(s.blocked, s.bl) && AtOwnLevels(s)
    ensures Sized(r.1)
  {
    PopBlockedLevel(s);
    var (w, q) := PopHighest(s.blocked);
    if w == NULL then (NULL, s)
    else (w, Wake(s.(blocked := q, bl := Dequeued(s.bl, w)), w))
  }

  /** k_release_memory_block's effect on the processes: the woken process, if any, and then a yield. */
  function ReleaseBlock(s: Sched): (r: (int, Sched))
    requires Sized(s) && Tags(s.blocked, s.bl) && AtOwnLevels(s)
    ensures Sized(r.1)
  {
    var (w, s1) := Unblock(s);
    if w == NULL then (NULL, s) else (w, Release(s1).1)
  }

  /** Taking the front of the highest non-empty level of the blocked queue keeps the queues coherent. */
  lemma PopBlockedCoherent(s: Sched)
    requires Sized(s) && Coherent(s) && AtOwnLevels(s)
    ensures var (w, q) := PopHighest(s.blocked);
      w != NULL ==> Coherent(s.(blocked := q, bl := Dequeued(s.bl, w)))
  {
    PopBlockedLevel(s);
    var f := FirstNonEmpty(s.blocked);
    if f < NUM_PRIORITIES {
      var b := s.blocked[f];
      assert Distinct(b);
      DistinctTail(b);
      forall i | 0 < i < |b|
        ensures b[i] != b[0]
      {
        assert b[1..][i - 1] == b[i];
      }
      PopFrontTags(s.blocked, s.bl, f);
      var q := s.blocked[f := b[1..]];
      forall k | 0 <= k < |q|
        ensures Distinct(q[k])
      {
        assert k != f ==> q[k] == s.blocked[k];
      }
    }
  }

  /** The process woken for a released block was waiting for memory, and the kernel is at a yield point again. */
  lemma UnblockKeeps(s: Sched)
    requires Sized(s) && Coherent(s) && Steady(s) && IsPid(s.current)
    ensures AtOwnLevels(s)
    ensures var (w, s1) := Unblock(s);
      w != NULL ==>
        && IsPid(w) && s.state[w] == BlockedMemory && s1.state[w] == Ready && s1.bl[w] == NULL
        && Tags(s1.ready, s1.rl) && Yielding(s1) && s1.current == s.current
  {
    PopBlockedLevel(s);
    PopBlockedCoherent(s);
    var (w, q) := PopHighest(s.blocked);
    if w != NULL {
      var s1 := s.(blocked := q, bl := Dequeued(s.bl, w));
      WakeCoherent(s1, w);
      UnblockedOk(s.state, s.priority, s.used, s.current, s.rl, s.bl, w);
    }
  }

  /** A process taken off the blocked queue and made READY at the back of its ready level leaves a yield point. */
  lemma UnblockedOk(st: seq<State>, pr: seq<int>, used: seq<bool>, cur: int, rl: seq<int>, bl: seq<int>, w: int)
    requires SchedOk(st, pr, used, cur, rl, bl) && IsPid(w) && st[w] == BlockedMemory
    ensures YieldOk(st[w := Ready], pr, used, cur, rl[w := pr[w]], bl[w := NULL])
  {
    var st', rl', bl' := st[w := Ready], rl[w := pr[w]], bl[w := NULL];
    assert forall p :: 0 <= p < NUM_PROCS && p != w ==> st'[p] == st[p] && rl'[p] == rl[p] && bl'[p] == bl[p];
  }

  /**
   * k_release_memory_block keeps the scheduling invariant. With no process
   * waiting for memory nothing changes and there is no yield. Otherwise the
   * woken process had been waiting for memory and is now READY or running
   * and off the blocked queue.
   */
  lemma ReleaseBlockKeeps(s: Sched)
    requires Sized(s) && Coherent(s) && Steady(s) && IsPid(s.current)
    ensures AtOwnLevels(s)
    ensures var (w, s') := ReleaseBlock(s);
      && Steady(s')
      && (w == NULL <==> forall k :: 0 <= k < NUM_PRIORITIES ==> s.blocked[k] == [])
      && (w == NULL ==> s' == s)
      && (w != NULL ==>
            IsPid(w) && s.state[w] == BlockedMemory && (s'.state[w] == Ready || s'.state[w] == Run) && s'.bl[w] == NULL)
  {
    PopBlockedLevel(s);
    UnblockKeeps(s);
    var (w, s1) := Unblock(s);
    if w != NULL {
      ReleaseKeeps(s1);
    }
  }

  /** The process k_release_memory_block wakes has the highest priority of all processes waiting for memory. */
  lemma ReleaseBlockWakesHighest(s: Sched)
    requires Sized(s) && Coherent(s) && Steady(s)
    ensures AtOwnLevels(s)
    ensures var w := ReleaseBlock(s).0;
      w != NULL ==> forall p :: 0 <= p < NUM_PROCS && s.state[p] == BlockedMemory ==> s.priority[w] <= s.priority[p]
  {
    PopBlockedLevel(s);
    var w := ReleaseBlock(s).0;
    if w != NULL {
      forall p | 0 <= p < NUM_PROCS && s.state[p] == BlockedMemory
        ensures s.priority[w] <= s.priority[p]
      {
        assert p in s.blocked[s.bl[p]];
      }
    }
  }

  /** Waking a process other than c leaves c stranded. */
  lemma WakeStranded(s: Sched, pid: int, c: int)
    requires Sized(s) && IsPid(pid) && HIGH <= s.priority[pid] <= HIDDEN && IsPid(c) && Stranded(s, c) && pid != c
    ensures Stranded(Wake(s, pid), c)
  {
    var q := Wake(s, pid).ready;
    forall k | 0 <= k < NUM_PRIORITIES
      ensures c !in q[k]
    {
      if k == s.priority[pid] {
        assert q[k] == s.ready[k] + [pid];
      }
    }
  }

  /** No sent message wakes a stranded process: it stays stranded. */
  lemma SendStranded(s: Sched, pid: int, c: int)
    requires Sized(s) && IsPid(s.current) && IsPid(pid) && (s.state[pid] == BlockedMsg ==> s.priority[pid] != INTERRUPT)
    requires IsPid(c) && Stranded(s, c) && c != PID_TIMER_IPROC && c != PID_UART_IPROC
    ensures Stranded(Send(s, pid).1, c)
  {
    if s.state[pid] == BlockedMsg {
      WakeStranded(s, pid, c);
      if Preempts(s, pid) {
        ReleaseStranded(Wake(s, pid), c);
      }
    }
  }

  /** No released memory block wakes a stranded process: the blocked queue never hands it out, and it stays stranded. */
  lemma ReleaseBlockStranded(s: Sched, c: int)
    requires Sized(s) && Tags(s.blocked, s.bl) && AtOwnLevels(s)
    requires IsPid(c) && Stranded(s, c) && c != PID_TIMER_IPROC && c != PID_UART_IPROC
    ensures ReleaseBlock(s).0 != c && Stranded(ReleaseBlock(s).1, c)
  {
    PopBlockedLevel(s);
    var (w, q) := PopHighest(s.blocked);
    if w != NULL {
      var f := FirstNonEmpty(s.blocked);
      assert w in s.blocked[f];
      forall k | 0 <= k < NUM_PRIORITIES
        ensures c !in q[k]
      {
        if k == f {
          forall i | 0 <= i < |q[k]|
            ensures q[k][i] != c
          {
            assert q[k][i] == s.blocked[f][i + 1];
          }
        }
      }
      var s1 := s.(blocked := q, bl := Dequeued(s.bl, w));
      WakeStranded(s1, w, c);
      ReleaseStranded(Wake(s1, w), c);
    }
  }

  /* ---------------------------------------------------------------- */
  /* Priorities                                                        */
  /* ---------------------------------------------------------------- */

  /** Removing x from a level keeps every queued entry a pid. */
  lemma RemoveQueued(q: Buckets, p: int, x: int)
    requires Queued(q) && 0 <= p < |q|
    ensures Queued(q[p := Remove(q[p], x)])
  {
    var u := Remove(q[p], x);
    RemoveContents(q[p], x);
    forall i | 0 <= i < |u|
      ensures IsPid(u[i])
    {
      assert u[i] in multiset(u);
      assert u[i] in q[p];
    }
  }

  /** In a level without repetitions, removing pid takes out its only occurrence and leaves no repetitions. */
  lemma RemoveDistinct(t: seq<int>, pid: int)
    requires Distinct(t) && pid in t
    ensures exists k :: 0 <= k < |t| && t[k] == pid && Remove(t, pid) == RemoveAt(t, k)
    ensures Distinct(Remove(t, pid)) && pid !in Remove(t, pid)
  {
    var k :| 0 <= k < |t| && t[k] == pid;
    RemoveFirstAt(t, k, pid);
    DistinctRemoveAt(t, k);
    var u := RemoveAt(t, k);
    forall a, b | 0 <= a < b < |u|
      ensures u[a] != u[b]
    {
      if b < k {
      } else if a < k {
        assert u[b] == t[b + 1];
      } else {
        assert u[a] == t[a + 1] && u[b] == t[b + 1];
      }
    }
  }

  /** Taking pid out of level p, where loc says it is queued, keeps the levels and loc in step. */
  lemma RemoveKeeps(q: Buckets, loc: seq<int>, p: int, pid: int)
    requires Tags(q, loc) && Unrepeated(q) && 0 <= pid < |loc| && 0 <= p < |q| && loc[pid] == p
    ensures var r := q[p := Remove(q[p], pid)];
      Tags(r, loc[pid := NULL]) && Unrepeated(r) && pid !in r[p]
  {
    var t := q[p];
    assert pid in t;
    RemoveDistinct(t, pid);
    var k :| 0 <= k < |t| && t[k] == pid && Remove(t, pid) == RemoveAt(t, k);
    RemoveLevels(q, loc, p, k);
    RemoveLocs(q, loc, p, k);
  }

  /** After taking out index k of level p, every remaining entry is still tagged with its level. */
  lemma RemoveLevels(q: Buckets, loc: seq<int>, p: int, k: int)
    requires Tags(q, loc) && 0 <= p < |q| && 0 <= k < |q[p]| && 0 <= q[p][k] < |loc|
    requires q[p][k] !in RemoveAt(q[p], k)
    ensures var r, l := q[p := RemoveAt(q[p], k)], loc[q[p][k] := NULL];
      forall j, i :: 0 <= j < |r| && 0 <= i < |r[j]| && 0 <= r[j][i] < |l| ==> l[r[j][i]] == j
  {
    var t := q[p];
    var u := RemoveAt(t, k);
    var r, l := q[p := u], loc[t[k] := NULL];
    forall j, i | 0 <= j < |r| && 0 <= i < |r[j]| && 0 <= r[j][i] < |l|
      ensures l[r[j][i]] == j
    {
      if j == p {
        assert u[i] == t[i] || u[i] == t[i + 1];
        assert u[i] in u;
      }
    }
  }

  /** After taking out index k of level p, every pid still tagged is found at its level. */
  lemma RemoveLocs(q: Buckets, loc: seq<int>, p: int, k: int)
    requires Tags(q, loc) && Unrepeated(q) && 0 <= p < |q| && 0 <= k < |q[p]| && 0 <= q[p][k] < |loc|
    ensures var r, l := q[p := RemoveAt(q[p], k)], loc[q[p][k] := NULL];
      forall x :: 0 <= x < |l| && l[x] != NULL ==> 0 <= l[x] < |r| && x in r[l[x]]
  {
    var t := q[p];
    var u := RemoveAt(t, k);
    var r, l := q[p := u], loc[t[k] := NULL];
    assert Distinct(t);
    forall x | 0 <= x < |l| && l[x] != NULL
      ensures 0 <= l[x] < |r| && x in r[l[x]]
    {
      if loc[x] == p {
        var i :| 0 <= i < |t| && t[i] == x;
        if i < k {
          assert u[i] == x;
        } else {
          assert i != k && u[i - 1] == x;
        }
      }
    }
  }

  /**
   * pq_pop_PCB_ready, then pq_pop_PCB_blocked if that found nothing, each
   * searching pid's level for its current priority: the queue that held pid
   * loses it. The flag says whether either found it.
   */
  function Unqueue(s: Sched, pid: int): (r: (bool, Sched))
    requires Sized(s) && IsPid(pid)
    ensures Sized(r.1)
    ensures r.1 == s.(ready := r.1.ready, rl := r.1.rl, blocked := r.1.blocked, bl := r.1.bl)
  {
    var p := s.priority[pid];
    if p <= HIDDEN && s.rl[pid] == p then
      RemoveQueued(s.ready, p, pid);
      (true, s.(ready := s.ready[p := Remove(s.ready[p], pid)], rl := s.rl[pid := NULL]))
    else if p <= HIDDEN && s.bl[pid] == p then
      RemoveQueued(s.blocked, p, pid);
      (true, s.(blocked := s.blocked[p := Remove(s.blocked[p], pid)], bl := s.bl[pid := NULL]))
    else
      (false, s)
  }

  /**
   * The rest of k_set_process_priority for a process other than the
   * caller, once it is off both queues: it gets the new priority, and a NEW
   * or READY process goes to the back of that level of the ready queue, a
   * BLOCKED_MEMORY one to the back of that level of the blocked queue.
   */
  function Reposition(s: Sched, pid: int, prio: int): (r: Sched)
    requires Sized(s) && IsPid(pid) && HIGH <= prio <= LOWEST
    ensures Sized(r)
    ensures r == s.(priority := s.priority[pid := prio], ready := r.ready, rl := r.rl, blocked := r.blocked, bl := r.bl)
  {
    var s1 := s.(priority := s.priority[pid := prio]);
    if s.state[pid] == New || s.state[pid] == Ready then
      RequeueQueued(s.ready, pid, prio, false);
      s1.(ready := Requeue(s.ready, pid, prio, false), rl := s.rl[pid := prio])
    else if s.state[pid] == BlockedMemory then
      RequeueQueued(s.blocked, pid, prio, false);
      s1.(blocked := Requeue(s.blocked, pid, prio, false), bl := s.bl[pid := prio])
    else
      s1
  }

  /** The argument checks of k_set_process_priority: pid 1..6 and a priority HIGH..LOWEST. */
  predicate PriorityArgsOk(pid: int, prio: int) {
    1 <= pid <= 6 && HIGH <= prio <= LOWEST
  }

  /**
   * k_set_process_priority, with the lookup made safe: bad arguments give
   * RTX_ERR and change nothing; the caller's own priority is set and it
   * yields; any other process is taken off its queue, repositioned at the
   * new priority, and the caller yields.
   */
  function SetPriority(s: Sched, pid: int, prio: int): (r: (int, Sched))
    requires Sized(s) && IsPid(s.current)
    ensures Sized(r.1)
  {
    if !PriorityArgsOk(pid, prio) then (RTX_ERR, s)
    else if pid == s.current then Release(s.(priority := s.priority[pid := prio]))
    else Release(Reposition(Unqueue(s, pid).1, pid, prio))
  }

  /**
   * Where k_set_process_priority as written reads through NULL: inside
   * pq_pop_PCB_ready or pq_pop_PCB_blocked (pq.c:69, on an empty level), or
   * at process->m_priority (k_process.c:277) when both lookups return NULL.
   */
  datatype Site = ReadyLookup | BlockedLookup | PriorityWrite

  /** k_set_process_priority as written: its result and the new state, or the NULL dereference it reaches. */
  datatype SetOutcome = Returns(r: int, s: Sched) | Faults(site: Site)

  /**
   * pq_pop_PCB as written, on the contents of level p of q: a level with a
   * NULL front (an empty one, or none at all for a priority past the
   * array) is read through at pq.c:69 (None); otherwise pid is found iff
   * the level holds it, and leaves it. PopPcbAsWrittenAbsent,
   * PopPcbAsWrittenFound and PopPcbEmptyLevelFaults state the same of the
   * arrays.
   */
  function PopPcbContents(q: Buckets, p: int, pid: int): (r: Option<(bool, Buckets)>)
    ensures r.None? <==> !(0 <= p < |q|) || q[p] == []
    ensures r.Some? ==> (r.value.0 <==> pid in q[p])
    ensures Queued(q) && r.Some? ==> Queued(r.value.1)
  {
    if !(0 <= p < |q|) || q[p] == [] then None
    else if pid in q[p] then
      assert Queued(q) ==> Queued(q[p := Remove(q[p], pid)]) by {
        if Queued(q) { RemoveQueued(q, p, pid); }
      }
      Some((true, q[p := Remove(q[p], pid)]))
    else Some((false, q))
  }

  /** The rest of k_set_process_priority once a lookup has taken pid off a queue: the new priority, the re-push, the yield. */
  function Moved(s: Sched, pid: int, prio: int): (r: SetOutcome)
    requires Sized(s) && IsPid(pid) && HIGH <= prio <= LOWEST
    ensures r.Returns? && Sized(r.s)
  {
    var (x, s') := Release(Reposition(s, pid, prio));
    Returns(x, s')
  }

  /**
   * k_set_process_priority as written: pq_pop_PCB_ready on pid's level,
   * then pq_pop_PCB_blocked if that returned NULL, each reading through
   * NULL on an empty level; when both return NULL the priority write reads
   * through NULL as well.
   */
  function SetPriorityAsWritten(s: Sched, pid: int, prio: int): (r: SetOutcome)
    requires Sized(s) && IsPid(s.current)
    ensures r.Returns? ==> Sized(r.s)
  {
    if !PriorityArgsOk(pid, prio) then Returns(RTX_ERR, s)
    else if pid == s.current then
      var (x, s') := Release(s.(priority := s.priority[pid := prio]));
      Returns(x, s')
    else
      var p := s.priority[pid];
      match PopPcbContents(s.ready, p, pid)
      case None => Faults(ReadyLookup)
      case Some((true, ready)) => Moved(s.(ready := ready, rl := s.rl[pid := NULL]), pid, prio)
      case Some((false, _)) =>
        match PopPcbContents(s.blocked, p, pid)
        case None => Faults(BlockedLookup)
        case Some((true, blocked)) => Moved(s.(blocked := blocked, bl := s.bl[pid := NULL]), pid, prio)
        case Some((false, _)) => Faults(PriorityWrite)
  }

  /** k_get_process_priority: RTX_ERR for a pid outside the table, else the pid's priority. */
  function GetPriority(s: Sched, pid: int): (r: int)
    requires Sized(s)
    ensures !(0 <= pid < NUM_PROCS) ==> r == RTX_ERR
    ensures 0 <= pid < NUM_PROCS ==> HIGH <= r <= INTERRUPT && r != RTX_ERR
  {
    if pid < 0 || pid >= NUM_PROCS then RTX_ERR else s.priority[pid]
  }

  /** The lookup of k_set_process_priority finds pid exactly when a queue holds it, and leaves it on neither. */
  lemma UnqueueKeeps(s: Sched, pid: int)
    requires Sized(s) && Coherent(s) && Steady(s) && IsPid(pid)
    ensures var (found, s1) := Unqueue(s, pid);
      && Coherent(s1) && (found <==> s.rl[pid] != NULL || s.bl[pid] != NULL)
      && s1.rl == s.rl[pid := NULL] && s1.bl == s.bl[pid := NULL]
  {
    var p := s.priority[pid];
    if p <= HIDDEN && s.rl[pid] == p {
      RemoveKeeps(s.ready, s.rl, p, pid);
    } else if p <= HIDDEN && s.bl[pid] == p {
      RemoveKeeps(s.blocked, s.bl, p, pid);
    }
  }

  /** Putting a process on no queue back at level prio of either queue keeps that queue coherent. */
  lemma RequeueCoherent(q: Buckets, loc: seq<int>, pid: int, prio: int)
    requires Tags(q, loc) && Unrepeated(q) && 0 <= pid < |loc| && loc[pid] == NULL && 0 <= prio < |q|
    ensures Tags(Requeue(q, pid, prio, false), loc[pid := prio]) && Unrepeated(Requeue(q, pid, prio, false))
  {
    RequeueTags(q, loc, pid, prio, false);
    var t := q[prio];
    forall i | 0 <= i < |t|
      ensures t[i] != pid
    {
      assert t[i] in t;
    }
    var r := Requeue(q, pid, prio, false);
    forall k | 0 <= k < |r|
      ensures Distinct(r[k])
    {
      if k == prio {
        assert r[k] == t + [pid];
      }
    }
  }

  /** The level a process is queued at once k_set_process_priority has given it priority prio, by its state. */
  function NewLevel(st: State, prio: int, blocked: bool): int {
    if !blocked && (st == New || st == Ready) then prio
    else if blocked && st == BlockedMemory then prio
    else NULL
  }

  /** The queue invariant survives moving a process other than the current one, and not the null or an interrupt process, to priority prio. */
  lemma QueuesOkRepositioned(st: seq<State>, pr: seq<int>, used: seq<bool>, cur: int, rl: seq<int>, bl: seq<int>, pid: int, prio: int)
    requires QueuesOk(st, pr, used, cur, rl, bl) && PriorityArgsOk(pid, prio) && pid != cur
    ensures QueuesOk(st, pr[pid := prio], used, cur, rl[pid := NewLevel(st[pid], prio, false)], bl[pid := NewLevel(st[pid], prio, true)])
  {
  }

  /** Repositioning a process other than the caller at a new priority leaves the kernel at a yield point with coherent queues. */
  lemma RepositionYields(s: Sched, pid: int, prio: int)
    requires Sized(s) && Coherent(s) && Steady(s) && IsPid(s.current) && PriorityArgsOk(pid, prio) && pid != s.current
    ensures var s2 := Reposition(Unqueue(s, pid).1, pid, prio);
      Coherent(s2) && Yielding(s2)
  {
    UnqueueKeeps(s, pid);
    var s1 := Unqueue(s, pid).1;
    RequeueLevels(s1, pid, prio);
    assert s1.rl[pid := NewLevel(s.state[pid], prio, false)] == s.rl[pid := NewLevel(s.state[pid], prio, false)];
    assert s1.bl[pid := NewLevel(s.state[pid], prio, true)] == s.bl[pid := NewLevel(s.state[pid], prio, true)];
    QueuesOkRepositioned(s.state, s.priority, s.used, s.current, s.rl, s.bl, pid, prio);
  }

  /** Requeueing a process that is on neither queue records its new level, if it goes on one, and keeps the queues coherent. */
  lemma RequeueLevels(s: Sched, pid: int, prio: int)
    requires Sized(s) && Coherent(s) && IsPid(pid) && HIGH <= prio <= LOWEST && s.rl[pid] == NULL && s.bl[pid] == NULL
    ensures var s2 := Reposition(s, pid, prio);
      && Coherent(s2)
      && s2.rl == s.rl[pid := NewLevel(s.state[pid], prio, false)]
      && s2.bl == s.bl[pid := NewLevel(s.state[pid], prio, true)]
  {
    if s.state[pid] == New || s.state[pid] == Ready {
      RequeueCoherent(s.ready, s.rl, pid, prio);
    } else if s.state[pid] == BlockedMemory {
      RequeueCoherent(s.blocked, s.bl, pid, prio);
    }
  }

  /**
   * k_set_process_priority keeps the scheduling invariant. Bad arguments
   * give RTX_ERR and change nothing; otherwise the result is RTX_OK, pid
   * has the new priority and no other priority changes, and a process
   * waiting for a message or for memory is still waiting, for memory at its
   * new level of the blocked queue.
   */
  lemma SetPriorityKeeps(s: Sched, pid: int, prio: int)
    requires Sized(s) && Coherent(s) && Steady(s) && IsPid(s.current)
    ensures var (r, s') := SetPriority(s, pid, prio);
      && Steady(s')
      && (r == RTX_OK <==> PriorityArgsOk(pid, prio))
      && (!PriorityArgsOk(pid, prio) ==> r == RTX_ERR && s' == s)
      && (PriorityArgsOk(pid, prio) ==>
            && s'.priority == s.priority[pid := prio]
            && (s.state[pid] == BlockedMsg ==> s'.state[pid] == BlockedMsg)
            && (s.state[pid] == BlockedMemory ==> s'.state[pid] == BlockedMemory && s'.bl[pid] == prio))
  {
    if PriorityArgsOk(pid, prio) {
      if pid == s.current {
        var s1 := s.(priority := s.priority[pid := prio]);
        assert Yielding(s1);
        ReleaseKeeps(s1);
      } else {
        RepositionKeeps(s, pid, prio);
      }
    }
  }

  /** k_set_process_priority for a process other than the caller: the yield after the repositioning. */
  lemma RepositionKeeps(s: Sched, pid: int, prio: int)
    requires Sized(s) && Coherent(s) && Steady(s) && IsPid(s.current) && PriorityArgsOk(pid, prio) && pid != s.current
    ensures var (r, s') := Release(Reposition(Unqueue(s, pid).1, pid, prio));
      && r == RTX_OK && Steady(s') && s'.priority == s.priority[pid := prio]
      && (s.state[pid] == BlockedMsg ==> s'.state[pid] == BlockedMsg)
      && (s.state[pid] == BlockedMemory ==> s'.state[pid] == BlockedMemory && s'.bl[pid] == prio)
  {
    RepositionYields(s, pid, prio);
    UnqueueKeeps(s, pid);
    var s2 := Reposition(Unqueue(s, pid).1, pid, prio);
    assert s.state[pid] == BlockedMemory ==> s2.bl[pid] == prio;
    ReleaseKeeps(s2);
  }

  /** k_get_process_priority after a successful k_set_process_priority reads back the priority just set. */
  lemma SetThenGet(s: Sched, pid: int, prio: int)
    requires Sized(s) && Coherent(s) && Steady(s) && IsPid(s.current) && PriorityArgsOk(pid, prio)
    ensures GetPriority(SetPriority(s, pid, prio).1, pid) == prio
  {
    SetPriorityKeeps(s, pid, prio);
  }

  /**
   * As written, k_set_process_priority on another user process faults
   * whenever the level of the target's priority is empty in the ready
   * queue, and a process blocked on a message (which neither queue holds)
   * always faults: inside pq_pop_PCB_blocked when its blocked level is
   * empty, as it always is when k_request_memory_block queues nobody
   * (AwaitMemoryAsWrittenStrands), and at the priority write otherwise.
   * When every level it searches is non-empty, the source does what
   * SetPriority does.
   */
  lemma SetPriorityAsWrittenFaults(s: Sched, pid: int, prio: int)
    requires Sized(s) && Coherent(s) && Steady(s) && IsPid(s.current) && PriorityArgsOk(pid, prio) && pid != s.current
    ensures var p := s.priority[pid];
      !(0 <= p < NUM_PRIORITIES) || s.ready[p] == [] ==> SetPriorityAsWritten(s, pid, prio) == Faults(ReadyLookup)
    ensures var p := s.priority[pid];
      s.state[pid] == BlockedMsg && 0 <= p < NUM_PRIORITIES && s.ready[p] != [] ==>
        SetPriorityAsWritten(s, pid, prio) == Faults(if s.blocked[p] == [] then BlockedLookup else PriorityWrite)
    ensures var p := s.priority[pid];
      s.used[pid] && s.state[pid] != BlockedMsg && 0 <= p < NUM_PRIORITIES && s.ready[p] != [] &&
      (pid !in s.ready[p] ==> s.blocked[p] != []) ==>
        SetPriorityAsWritten(s, pid, prio) == Returns(SetPriority(s, pid, prio).0, SetPriority(s, pid, prio).1)
  {
    UnqueueKeeps(s, pid);
    var p := s.priority[pid];
    if 0 <= p < NUM_PRIORITIES {
      assert s.rl[pid] == p <==> pid in s.ready[p];
      assert s.bl[pid] == p <==> pid in s.blocked[p];
    }
  }

  /**
   * A process waiting for a memory block whose ready level is empty: the
   * source faults inside pq_pop_PCB_ready, where the corrected SetPriority
   * moves it to its new blocked level.
   */
  lemma SetPriorityAsWrittenEmptyReadyLevel(s: Sched, pid: int, prio: int)
    requires Sized(s) && Coherent(s) && Steady(s) && IsPid(s.current) && PriorityArgsOk(pid, prio) && pid != s.current
    requires s.state[pid] == BlockedMemory && s.ready[s.priority[pid]] == []
    ensures SetPriorityAsWritten(s, pid, prio) == Faults(ReadyLookup)
    ensures SetPriority(s, pid, prio).1.state[pid] == BlockedMemory && SetPriority(s, pid, prio).1.bl[pid] == prio
  {
    SetPriorityKeeps(s, pid, prio);
  }
}

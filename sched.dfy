/**
 * The scheduling policy of src/k_process.c as functions of the kernel's
 * state: which outgoing process `scheduler` puts back on the ready queue,
 * at which end, and which process it hands the processor to. The Kernel
 * class's methods are specified by these functions.
 */
module Scheduling {
  import opened Rtx
  import opened PriorityQueue

  /** `scheduler` re-queues the outgoing process when it is not an interrupt process and is not blocked. */
  predicate Requeues(out: int, st: seq<State>, pr: seq<int>)
    requires |st| == NUM_PROCS && |pr| == NUM_PROCS
  {
    IsPid(out) && pr[out] != INTERRUPT && (st[out] == New || st[out] == Ready || st[out] == Run)
  }

  /** The ready queue with pid added at level p: at the front while an interrupt is pending, at the back otherwise. */
  function Requeue(q: Buckets, pid: int, p: int, atFront: bool): (r: Buckets)
    requires 0 <= p < |q|
    ensures |r| == |q| && forall k :: 0 <= k < |q| && k != p ==> r[k] == q[k]
    ensures atFront ==> r[p] == [pid] + q[p]
    ensures !atFront ==> r[p] == q[p] + [pid]
  {
    q[p := if atFront then [pid] + q[p] else q[p] + [pid]]
  }

  /** The ready queue after `scheduler`'s first half. */
  function Requeued(q: Buckets, out: int, st: seq<State>, pr: seq<int>, timerPending: bool, uartPending: bool): Buckets
    requires |st| == NUM_PROCS && |pr| == NUM_PROCS && |q| == NUM_PRIORITIES
    requires Requeues(out, st, pr) ==> HIGH <= pr[out] <= HIDDEN
  {
    if Requeues(out, st, pr) then Requeue(q, out, pr[out], timerPending || uartPending) else q
  }

  /**
   * The process `scheduler` returns and the ready queue it leaves: the
   * timer interrupt process when its flag is set, else the UART interrupt
   * process when its flag is set, else the pop of the ready queue.
   */
  function Pick(q: Buckets, timerPending: bool, uartPending: bool): (r: (int, Buckets))
    ensures timerPending ==> r == (PID_TIMER_IPROC, q)
    ensures !timerPending && uartPending ==> r == (PID_UART_IPROC, q)
    ensures !timerPending && !uartPending ==> r == PopHighest(q)
  {
    if timerPending then (PID_TIMER_IPROC, q)
    else if uartPending then (PID_UART_IPROC, q)
    else PopHighest(q)
  }

  /** No level of q holds pid. */
  ghost predicate Unqueued(q: Buckets, pid: int) {
    forall k :: 0 <= k < |q| ==> pid !in q[k]
  }

  /**
   * A process interrupted while an interrupt was pending goes back at the
   * front of its level, so once the interrupt process yields with no flag
   * set it is the next to run exactly when no higher-priority level is
   * waiting.
   */
  lemma InterruptedResumesFirst(q: Buckets, pid: int, p: int)
    requires Members(q) && 0 <= p < |q| && pid >= 0 && Unqueued(q, pid)
    ensures Pick(Requeue(q, pid, p, true), false, false).0 == pid <==> forall k :: 0 <= k < p ==> q[k] == []
  {
    var q' := Requeue(q, pid, p, true);
    var f := FirstNonEmpty(q');
    assert q'[p] != [];
    if f < p {
      assert q'[f] == q[f] && q[f][0] in q[f];
    }
  }

  /**
   * A process that yields with no interrupt pending goes behind its peers:
   * it is picked again exactly when every level up to and including its
   * own was otherwise empty.
   */
  lemma YieldGoesBehindPeers(q: Buckets, pid: int, p: int)
    requires Members(q) && 0 <= p < |q| && pid >= 0 && Unqueued(q, pid)
    ensures Pick(Requeue(q, pid, p, false), false, false).0 == pid <==> forall k :: 0 <= k <= p ==> q[k] == []
  {
    var q' := Requeue(q, pid, p, false);
    var f := FirstNonEmpty(q');
    assert q'[p] != [];
    if f < p {
      assert q'[f] == q[f] && q[f][0] in q[f];
    } else if q[p] != [] {
      assert f == p && q'[p][0] == q[p][0] && q[p][0] in q[p];
    }
  }

  /* ---------------------------------------------------------------- */
  /* The scheduling invariant and the release step                     */
  /* ---------------------------------------------------------------- */

  /** What process_switch leaves an outgoing process in: RUN and READY become READY, the other states stay. */
  function Park(s: State): State {
    if s == Run || s == Ready then Ready else s
  }

  /** The states after process_switch hands the processor from prev to next. */
  function Switched(st: seq<State>, prev: int, next: int): (r: seq<State>)
    requires IsPid(prev) && IsPid(next) && |st| == NUM_PROCS
    ensures |r| == NUM_PROCS && r[next] == Run
    ensures prev != next ==> r[prev] == Park(st[prev])
    ensures forall p :: 0 <= p < NUM_PROCS && p != prev && p != next ==> r[p] == st[p]
  {
    (if prev != next then st[prev := Park(st[prev])] else st)[next := Run]
  }

  /** The level the ready queue holds each pid at after `scheduler`'s first half. */
  function RequeuedLoc(loc: seq<int>, out: int, st: seq<State>, pr: seq<int>): seq<int>
    requires |st| == NUM_PROCS && |pr| == NUM_PROCS && |loc| == NUM_PROCS
  {
    if Requeues(out, st, pr) then loc[out := pr[out]] else loc
  }

  /**
   * What holds of the PCB fields, the current process cur and the levels
   * rl/bl at which the ready and blocked queues hold each pid, whenever the
   * kernel is about to pick a process:
   *  - the interrupt processes are initialised and have INTERRUPT priority,
   *    every priority is in HIGH..INTERRUPT, and an interrupt process is
   *    never blocked;
   *  - the null process is initialised, has HIDDEN priority and is never
   *    blocked (its body only ever yields);
   *  - only the current process can be in RUN, and every process is NEW
   *    before the first one is picked;
   *  - a process on the ready queue is there at its own priority, is not an
   *    interrupt process, is NEW or READY, is not on the blocked queue and is not the current process;
   *    a process is on the blocked queue exactly when it is BLOCKED_MEMORY,
   *    and there at its own priority;
   *  - conversely every initialised NEW or READY process other than the
   *    current one that is not an interrupt process is on the ready queue.
   */
  ghost predicate QueuesOk(st: seq<State>, pr: seq<int>, used: seq<bool>, cur: int, rl: seq<int>, bl: seq<int>) {
    && |st| == NUM_PROCS && |pr| == NUM_PROCS && |used| == NUM_PROCS && |rl| == NUM_PROCS && |bl| == NUM_PROCS
    && (cur == NULL || IsPid(cur))
    && (cur == NULL ==> forall p :: 0 <= p < NUM_PROCS ==> st[p] == New)
    && used[PID_TIMER_IPROC] && used[PID_UART_IPROC]
    && pr[PID_TIMER_IPROC] == INTERRUPT && pr[PID_UART_IPROC] == INTERRUPT
    && (forall p :: 0 <= p < NUM_PROCS ==> HIGH <= pr[p] <= INTERRUPT)
    && (forall p :: 0 <= p < NUM_PROCS && st[p] == Run ==> p == cur)
    && (forall p :: 0 <= p < NUM_PROCS && pr[p] == INTERRUPT ==> st[p] != BlockedMemory && st[p] != BlockedMsg)
    && used[PID_NULL] && pr[PID_NULL] == HIDDEN && st[PID_NULL] != BlockedMemory && st[PID_NULL] != BlockedMsg
    && (forall p :: 0 <= p < NUM_PROCS && rl[p] != NULL ==>
          rl[p] == pr[p] && pr[p] != INTERRUPT && bl[p] == NULL && (st[p] == New || st[p] == Ready) && p != cur)
    && (forall p :: 0 <= p < NUM_PROCS && bl[p] != NULL ==> bl[p] == pr[p] && st[p] == BlockedMemory)
    && (forall p :: 0 <= p < NUM_PROCS && st[p] == BlockedMemory ==> bl[p] != NULL)
    && (forall p :: 0 <= p < NUM_PROCS && used[p] && pr[p] != INTERRUPT && (st[p] == New || st[p] == Ready) && p != cur ==>
          rl[p] != NULL)
  }

  /** Between kernel calls: the queue invariant, and the current process (if any) is in RUN. */
  ghost predicate SchedOk(st: seq<State>, pr: seq<int>, used: seq<bool>, cur: int, rl: seq<int>, bl: seq<int>) {
    QueuesOk(st, pr, used, cur, rl, bl) && (cur != NULL ==> st[cur] == Run)
  }

  /** At a yield point: the queue invariant, and the current process is running or has just blocked itself. */
  ghost predicate YieldOk(st: seq<State>, pr: seq<int>, used: seq<bool>, cur: int, rl: seq<int>, bl: seq<int>) {
    QueuesOk(st, pr, used, cur, rl, bl) &&
    (cur != NULL ==> st[cur] == Run || st[cur] == BlockedMsg || st[cur] == BlockedMemory)
  }

  /**
   * k_release_processor from a yield point, once `scheduler` has returned
   * next: an interrupt process (picked by its flag) or a process the
   * requeued ready queue held (popped from it). The switch then succeeds
   * (next is NEW, READY, or the outgoing process itself) and the scheduling
   * invariant holds again with next current, the outgoing process parked
   * and the queues as `scheduler` left them.
   */
  lemma ReleaseOk(st: seq<State>, pr: seq<int>, used: seq<bool>, cur: int, rl: seq<int>, bl: seq<int>,
                  next: int, fromQueue: bool, rl': seq<int>)
    requires YieldOk(st, pr, used, cur, rl, bl) && IsPid(next)
    requires !fromQueue ==> pr[next] == INTERRUPT && rl' == RequeuedLoc(rl, cur, st, pr)
    requires fromQueue ==> RequeuedLoc(rl, cur, st, pr)[next] != NULL && rl' == Dequeued(RequeuedLoc(rl, cur, st, pr), next)
    ensures var prev := if cur == NULL then next else cur;
      && (st[next] == New || st[next] == Ready || next == prev)
      && (next == prev ==> (st[next] == New <==> cur == NULL) && (cur != NULL ==> st[next] == Run))
      && SchedOk(Switched(st, prev, next), pr, used, next, rl', bl)
  {
    var prev := if cur == NULL then next else cur;
    var st' := Switched(st, prev, next);
    var rq := RequeuedLoc(rl, cur, st, pr);
    forall p | 0 <= p < NUM_PROCS && rl'[p] != NULL
      ensures rl'[p] == pr[p] && pr[p] != INTERRUPT && bl[p] == NULL && (st'[p] == New || st'[p] == Ready) && p != next
    {
      assert p != next;
      if p == cur && Requeues(cur, st, pr) {
        assert st'[p] == Park(st[p]);
      } else {
        assert rl'[p] == rl[p] && p != prev;
        assert st'[p] == st[p];
      }
    }
    forall p | 0 <= p < NUM_PROCS && used[p] && pr[p] != INTERRUPT && (st'[p] == New || st'[p] == Ready) && p != next
      ensures rl'[p] != NULL
    {
      if p == prev {
        assert rq[p] != NULL;
      }
    }
  }

  /** loc with pid queued nowhere. */
  function Dequeued(loc: seq<int>, pid: int): (r: seq<int>)
    ensures |r| == |loc|
    ensures forall p :: 0 <= p < |loc| ==> r[p] == if p == pid then NULL else loc[p]
  {
    if 0 <= pid < |loc| then loc[pid := NULL] else loc
  }

  /* ---------------------------------------------------------------- */
  /* The scheduling state as a value                                   */
  /* ---------------------------------------------------------------- */

  /**
   * What the scheduling code of src/k_process.c reads and writes: the PCB
   * fields m_state, m_priority and mp_sp, whether process_init set up each
   * slot, gp_current_process, the ready and memory-blocked queues (their
   * levels, and the level each pid is queued at or NULL), the processor's
   * main stack pointer and the two pending flags.
   */
  datatype Sched = Sched(state: seq<State>, priority: seq<int>, used: seq<bool>, current: int,
                         ready: Buckets, rl: seq<int>, blocked: Buckets, bl: seq<int>,
                         sp: seq<int>, msp: int, timerPending: bool, uartPending: bool)

  /** The shapes the scheduling code relies on: one entry per PCB and per level, priorities HIGH..INTERRUPT. */
  ghost predicate Sized(s: Sched) {
    && |s.state| == NUM_PROCS && |s.priority| == NUM_PROCS && |s.used| == NUM_PROCS
    && |s.rl| == NUM_PROCS && |s.bl| == NUM_PROCS && |s.sp| == NUM_PROCS
    && |s.ready| == NUM_PRIORITIES && |s.blocked| == NUM_PRIORITIES
    && (s.current == NULL || IsPid(s.current))
    && (forall p :: 0 <= p < NUM_PROCS ==> HIGH <= s.priority[p] <= INTERRUPT)
    && Queued(s.ready) && Queued(s.blocked)
  }

  /** The scheduling invariant between kernel calls. */
  ghost predicate Steady(s: Sched) {
    SchedOk(s.state, s.priority, s.used, s.current, s.rl, s.bl)
  }

  /** The scheduling invariant at a yield point. */
  ghost predicate Yielding(s: Sched) {
    YieldOk(s.state, s.priority, s.used, s.current, s.rl, s.bl)
  }

  /** Re-queueing a pid keeps every queued entry a pid. */
  lemma RequeueQueued(q: Buckets, pid: int, p: int, atFront: bool)
    requires Queued(q) && IsPid(pid) && 0 <= p < |q|
    ensures Queued(Requeue(q, pid, p, atFront))
  {
    var r := Requeue(q, pid, p, atFront);
    forall k, i | 0 <= k < |r| && 0 <= i < |r[k]|
      ensures IsPid(r[k][i])
    {
      if k == p {
        if atFront {
          if i > 0 {
            assert r[k][i] == q[k][i - 1];
          }
        } else if i < |q[k]| {
          assert r[k][i] == q[k][i];
        }
      }
    }
  }

  lemma RequeuedQueued(q: Buckets, out: int, st: seq<State>, pr: seq<int>, tp: bool, up: bool)
    requires |st| == NUM_PROCS && |pr| == NUM_PROCS && |q| == NUM_PRIORITIES
    requires Requeues(out, st, pr) ==> HIGH <= pr[out] <= HIDDEN
    requires Queued(q)
    ensures Queued(Requeued(q, out, st, pr, tp, up))
  {
    if Requeues(out, st, pr) {
      RequeueQueued(q, out, pr[out], tp || up);
    }
  }

  lemma PickQueued(q: Buckets, tp: bool, up: bool)
    requires Queued(q)
    ensures Pick(q, tp, up).0 == NULL || IsPid(Pick(q, tp, up).0)
    ensures Queued(Pick(q, tp, up).1)
  {
    var f := FirstNonEmpty(q);
    if !tp && !up && f < |q| {
      var r := q[f := q[f][1..]];
      forall k, i | 0 <= k < |r| && 0 <= i < |r[k]|
        ensures IsPid(r[k][i])
      {
        if k == f {
          assert r[k][i] == q[f][i + 1];
        }
      }
    }
  }

  /**
   * `scheduler` on the value: the outgoing process re-queued, the pick,
   * the flag acted on cleared, and the level of the popped process cleared.
   */
  function Schedule(s: Sched): (r: (int, Sched))
    requires Sized(s)
    ensures Sized(r.1) && (r.0 == NULL || IsPid(r.0))
    ensures r.1.timerPending == false && r.1.uartPending == (s.timerPending && s.uartPending)
    ensures r.1 == s.(ready := r.1.ready, rl := r.1.rl, timerPending := r.1.timerPending, uartPending := r.1.uartPending)
  {
    var tp, up := s.timerPending, s.uartPending;
    var q := Requeued(s.ready, s.current, s.state, s.priority, tp, up);
    var rq := RequeuedLoc(s.rl, s.current, s.state, s.priority);
    RequeuedQueued(s.ready, s.current, s.state, s.priority, tp, up);
    PickQueued(q, tp, up);
    var (next, q') := Pick(q, tp, up);
    (next, s.(ready := q', rl := if tp || up then rq else Dequeued(rq, next), timerPending := false, uartPending := tp && up))
  }

  /**
   * process_switch on the value, from prev to s.current (the target). A
   * NEW target, or a READY target other than prev, gets RUN: the outgoing
   * process is parked and its stack pointer saved from msp (a NEW target
   * leaves a NEW outgoing process alone), and msp is loaded from the
   * target's. A target that is prev itself and not NEW stays as it is. Any
   * other target reverts the current process to prev and fails.
   */
  function Switch(s: Sched, prev: int): (r: (int, Sched))
    requires IsPid(s.current) && IsPid(prev) && |s.state| == NUM_PROCS && |s.sp| == NUM_PROCS
    ensures var t, ts := s.current, s.state[s.current];
      && (r.0 == RTX_OK <==> ts == New || ts == Ready || t == prev)
      && (r.0 == RTX_ERR ==> r.1 == s.(current := prev))
      && (r.0 == RTX_OK && t == prev && ts != New ==> r.1 == s)
      && (r.0 == RTX_OK && (t != prev || ts == New) ==>
            && r.1.state == Switched(s.state, prev, t)
            && r.1.sp == (if t != prev && (ts == Ready || s.state[prev] != New) then s.sp[prev := s.msp] else s.sp)
            && r.1.msp == s.sp[t]
            && r.1 == s.(state := r.1.state, sp := r.1.sp, msp := r.1.msp))
  {
    var t, ts := s.current, s.state[s.current];
    if ts == New then
      var s1 := if t != prev && s.state[prev] != New then s.(state := s.state[prev := Park(s.state[prev])], sp := s.sp[prev := s.msp]) else s;
      (RTX_OK, s1.(state := s1.state[t := Run], msp := s1.sp[t]))
    else if t == prev then
      (RTX_OK, s)
    else if ts == Ready then
      var sp' := s.sp[prev := s.msp];
      (RTX_OK, s.(state := s.state[prev := Park(s.state[prev])][t := Run], sp := sp', msp := sp'[t]))
    else
      (RTX_ERR, s.(current := prev))
  }

  /**
   * k_release_processor on the value: `scheduler` picks; with nothing to
   * run the current process is kept and RTX_ERR returned; otherwise the
   * pick becomes current and process_switch runs from the outgoing process
   * (from the pick itself on the first call), its result ignored.
   */
  function Release(s: Sched): (r: (int, Sched))
    requires Sized(s)
    ensures Sized(r.1)
  {
    var (next, s1) := Schedule(s);
    if next == NULL then (RTX_ERR, s1)
    else (RTX_OK, Switch(s1.(current := next), if s.current == NULL then next else s.current).1)
  }

  /** Re-queueing a process that is on no level keeps the levels and loc in step. */
  lemma RequeueTags(q: Buckets, loc: seq<int>, pid: int, p: int, atFront: bool)
    requires Tags(q, loc) && 0 <= pid < |loc| && loc[pid] == NULL && 0 <= p < |q|
    ensures Tags(Requeue(q, pid, p, atFront), loc[pid := p])
  {
    var r, l := Requeue(q, pid, p, atFront), loc[pid := p];
    forall k, i | 0 <= k < |r| && 0 <= i < |r[k]| && 0 <= r[k][i] < |l|
      ensures l[r[k][i]] == k
    {
      var x := r[k][i];
      if x != pid {
        if k == p && atFront {
          assert x == q[k][i - 1];
        } else {
          assert x == q[k][i];
        }
      }
    }
    forall x | 0 <= x < |l| && l[x] != NULL
      ensures 0 <= l[x] < |r| && x in r[l[x]]
    {
      if x != pid {
        var k := loc[x];
        assert x in q[k];
        var i :| 0 <= i < |q[k]| && q[k][i] == x;
        if k == p && atFront {
          assert r[k][i + 1] == x;
        } else {
          assert r[k][i] == x;
        }
      } else {
        if atFront {
          assert r[p][0] == pid;
        } else {
          assert r[p][|r[p]| - 1] == pid;
        }
      }
    }
  }

  /**
   * At a yield point `scheduler` always has a process to hand over to: an
   * interrupt process whose flag is set, or else the null process, which is
   * either the outgoing process (and re-queued) or waiting on the ready queue.
   */
  lemma SomethingToRun(s: Sched)
    requires Sized(s) && Tags(s.ready, s.rl) && Yielding(s)
    ensures Schedule(s).0 != NULL
  {
    if !s.timerPending && !s.uartPending {
      var q := Requeued(s.ready, s.current, s.state, s.priority, false, false);
      RequeuedQueued(s.ready, s.current, s.state, s.priority, false, false);
      if Requeues(s.current, s.state, s.priority) {
        assert q[s.priority[s.current]] != [];
      } else {
        assert s.current != PID_NULL && q == s.ready;
        assert PID_NULL in q[HIDDEN];
      }
      var f := FirstNonEmpty(q);
      assert f < |q|;
      assert q[f][0] >= 0;
    }
  }

  /**
   * k_release_processor from a yield point always succeeds: the process
   * `scheduler` picks is switched in (process_switch succeeds) and runs,
   * the outgoing process is parked, and the scheduling invariant holds
   * again.
   */
  /** The process `scheduler` picks can be switched to, and the switch keeps the scheduling invariant. */
  lemma ScheduleOk(s: Sched)
    requires Sized(s) && Tags(s.ready, s.rl) && Yielding(s)
    ensures var (next, s1) := Schedule(s);
      var prev := if s.current == NULL then next else s.current;
      && IsPid(next)
      && (s.state[next] == New || s.state[next] == Ready || next == prev)
      && (next == prev ==> (s.state[next] == New <==> s.current == NULL) && (s.current != NULL ==> s.state[next] == Run))
      && SchedOk(Switched(s.state, prev, next), s.priority, s.used, next, s1.rl, s1.bl)
  {
    var tp, up := s.timerPending, s.uartPending;
    var q := Requeued(s.ready, s.current, s.state, s.priority, tp, up);
    var rq := RequeuedLoc(s.rl, s.current, s.state, s.priority);
    var (next, s1) := Schedule(s);
    SomethingToRun(s);
    RequeuedQueued(s.ready, s.current, s.state, s.priority, tp, up);
    if Requeues(s.current, s.state, s.priority) {
      RequeueTags(s.ready, s.rl, s.current, s.priority[s.current], tp || up);
    }
    assert Tags(q, rq);
    var fromQueue := !tp && !up;
    if fromQueue {
      var f := FirstNonEmpty(q);
      assert next == q[f][0];
      assert rq[next] == f;
    }
    ReleaseOk(s.state, s.priority, s.used, s.current, s.rl, s.bl, next, fromQueue, s1.rl);
  }

  lemma ReleaseKeeps(s: Sched)
    requires Sized(s) && Tags(s.ready, s.rl) && Yielding(s)
    ensures var (r, s') := Release(s);
      var next := Schedule(s).0;
      var prev := if s.current == NULL then next else s.current;
      && r == RTX_OK && next != NULL
      && s'.current == next && s'.state == Switched(s.state, prev, next)
      && (s.current != NULL && s.state[s.current] != Run ==> next != s.current)
      && s'.priority == s.priority && s'.used == s.used && s'.blocked == s.blocked && s'.bl == s.bl
      && Steady(s')
  {
    var (next, s1) := Schedule(s);
    ScheduleOk(s);
    var prev := if s.current == NULL then next else s.current;
    var st1 := Switched(s.state, prev, next);
    if next == prev && s.state[next] != New {
      assert st1 == s.state;
    }
  }
}

/**
 * The kernel state of src/k_process.c and src/k_memory.c: the PCB table,
 * the ready and memory-blocked priority queues, the memory pool with the
 * mailboxes and the delayed-delivery queue, the current process, the two
 * interrupt-pending flags, the timer and the stack carver.
 *
 * PCB fields are sequences indexed by pid. The processor's main stack
 * pointer is the abstract `msp`; gp_stack and the words process_init
 * writes into the process stacks are held by the Stacks object.
 */
module Kernel {
  import opened Rtx
  import opened Chains
  import opened PriorityQueue
  import opened Memory
  import opened SysProcs
  import opened Scheduling
  import opened Primitives
  import opened Stacks
  import opened Timer

  /* ---------------------------------------------------------------- */
  /* The ready queue process_init builds                               */
  /* ---------------------------------------------------------------- */

  /** The slots below n that process_init puts on the ready queue at level p, in slot order. */
  function Slots(t: seq<ProcInit>, p: int, n: int): (r: seq<int>)
    requires 0 <= n <= |t|
    decreases n
  {
    if n == 0 then []
    else Slots(t, p, n - 1) + (if t[n - 1].pid != -1 && t[n - 1].priority == p then [n - 1] else [])
  }

  /** Level p of the boot ready queue holds exactly the used slots of priority p, in increasing slot order. */
  lemma {:induction false} SlotsSpec(t: seq<ProcInit>, p: int, n: int)
    requires 0 <= n <= |t|
    ensures forall x :: x in Slots(t, p, n) <==> 0 <= x < n && t[x].pid != -1 && t[x].priority == p
    ensures forall i, j :: 0 <= i < j < |Slots(t, p, n)| ==> Slots(t, p, n)[i] < Slots(t, p, n)[j]
    decreases n
  {
    if n > 0 {
      SlotsSpec(t, p, n - 1);
      var s := Slots(t, p, n - 1);
      forall i | 0 <= i < |s|
        ensures s[i] < n - 1
      {
        assert s[i] in s;
      }
    }
  }

  /** The ready queue after process_init has visited the first n slots. */
  function BootReady(t: seq<ProcInit>, n: int): (q: Buckets)
    requires 0 <= n <= |t|
    ensures |q| == NUM_PRIORITIES
  {
    seq(NUM_PRIORITIES, p => Slots(t, p, n))
  }

  /* ---------------------------------------------------------------- */
  /* The scheduling invariant                                          */
  /* ---------------------------------------------------------------- */

  /** a is none of the pool's arrays. */
  ghost predicate ArraysApart(a: array<int>, pool: Pool) {
    a != pool.link && a != pool.sendPid && a != pool.recvPid && a != pool.expiry
  }

  /** A used row of the process table that process_init can build a process from. */
  predicate UsableRow(row: ProcInit) {
    HIGH <= row.priority <= INTERRUPT && row.stackSize >= 0
  }

  /** The rows of the boot table: each used row is usable, and the two interrupt processes are there. */
  lemma BootTableRows(afterTests: seq<ProcInit>, e: Entries)
    requires IndexedTable(afterTests)
    requires forall i :: 0 <= i < NUM_PROCS && afterTests[i].pid != -1 ==> UsableRow(afterTests[i])
    ensures var t := BootTable(afterTests, e);
      && IndexedTable(t)
      && (forall i :: 0 <= i < NUM_PROCS && t[i].pid != -1 ==> UsableRow(t[i]))
      && t[PID_TIMER_IPROC].pid != -1 && t[PID_UART_IPROC].pid != -1
      && t[PID_TIMER_IPROC].priority == INTERRUPT && t[PID_UART_IPROC].priority == INTERRUPT
      && t[PID_NULL].pid != -1 && t[PID_NULL].priority == HIDDEN
  {
    BootTableShape(afterTests, e);
    var t := BootTable(afterTests, e);
    var s := SetSysProcs(afterTests, e);
    forall i | 0 <= i < NUM_PROCS && t[i].pid != -1
      ensures UsableRow(t[i])
    {
      if i !in {PID_TIMER_IPROC, PID_UART_IPROC} && i !in {PID_NULL, PID_SET_PRIO, PID_KCD, PID_CRT} {
        assert t[i] == s[i] == afterTests[i];
      }
    }
  }

  /** The scheduling invariant holds once process_init has visited every slot. */
  lemma BootSchedOk(t: seq<ProcInit>, s: Sched)
    requires IndexedTable(t) && (forall i :: 0 <= i < NUM_PROCS && t[i].pid != -1 ==> UsableRow(t[i]))
    requires t[PID_TIMER_IPROC].pid != -1 && t[PID_UART_IPROC].pid != -1
    requires t[PID_TIMER_IPROC].priority == INTERRUPT && t[PID_UART_IPROC].priority == INTERRUPT
    requires t[PID_NULL].pid != -1 && t[PID_NULL].priority == HIDDEN
    requires PcbBoot(t, NUM_PROCS, s.used, s.state, s.priority) && ReadyBoot(t, NUM_PROCS, s.ready, s.rl)
    requires |s.bl| == NUM_PROCS && forall p :: 0 <= p < NUM_PROCS ==> s.bl[p] == NULL
    requires |s.blocked| == NUM_PRIORITIES && forall p :: 0 <= p < NUM_PRIORITIES ==> s.blocked[p] == []
    requires |s.sp| == NUM_PROCS && s.current == NULL && Queued(s.ready)
    ensures Sized(s) && Steady(s)
  {
  }

  /** The PCB fields once process_init has visited the first n slots. */
  ghost predicate PcbBoot(t: seq<ProcInit>, n: int, used: seq<bool>, st: seq<State>, pr: seq<int>) {
    && |t| == NUM_PROCS && |used| == NUM_PROCS && |st| == NUM_PROCS && |pr| == NUM_PROCS
    && (forall p :: 0 <= p < NUM_PROCS ==> used[p] == (p < n && t[p].pid != -1) && st[p] == New)
    && (forall p :: 0 <= p < NUM_PROCS ==> pr[p] == if used[p] then t[p].priority else HIGH)
  }

  /** The ready queue once process_init has visited the first n slots. */
  ghost predicate ReadyBoot(t: seq<ProcInit>, n: int, buckets: Buckets, loc: seq<int>)
    requires 0 <= n <= |t| == NUM_PROCS
  {
    && |buckets| == NUM_PRIORITIES && |loc| == NUM_PROCS
    && (forall p :: 0 <= p < NUM_PRIORITIES ==> buckets[p] == Slots(t, p, n))
    && (forall p :: 0 <= p < NUM_PROCS ==>
          loc[p] == (if p < n && t[p].pid != -1 && t[p].priority != INTERRUPT then t[p].priority else NULL))
  }

  /**
   * The stacks once process_init has visited the first n slots: each used
   * slot's saved stack pointer addresses its initial frame, each stack lies
   * wholly above the next one carved and above gp_stack, and gp_stack stays
   * 8-byte aligned while the stack sizes are multiples of 4.
   */
  ghost predicate StacksBoot(t: seq<ProcInit>, n: int, used: seq<bool>, sp: seq<int>, words: map<int, int>, top: int, top0: int)
    requires |t| == NUM_PROCS && |used| == NUM_PROCS && |sp| == NUM_PROCS && 0 <= n <= NUM_PROCS
  {
    && (forall p :: 0 <= p < n && used[p] ==> FrameAt(words, sp[p], t[p].entry))
    && (forall p :: 0 <= p < n && used[p] ==> top <= sp[p] + 32 - (t[p].stackSize + 64))
    && (forall p, q :: 0 <= p < q < n && used[p] && used[q] ==> sp[q] + 32 <= sp[p] + 32 - (t[p].stackSize + 64))
    && (top0 % 8 == 0 && (forall p :: 0 <= p < n && used[p] ==> t[p].stackSize % 4 == 0) ==> top % 8 == 0)
  }

  lemma ReadyBootStep(t: seq<ProcInit>, i: int, b: Buckets, l: seq<int>, b': Buckets, l': seq<int>)
    requires 0 <= i < |t| == NUM_PROCS && ReadyBoot(t, i, b, l)
    requires t[i].pid != -1 ==> HIGH <= t[i].priority <= INTERRUPT
    requires t[i].pid != -1 && t[i].priority != INTERRUPT ==>
      b' == b[t[i].priority := b[t[i].priority] + [i]] && l' == l[i := t[i].priority]
    requires !(t[i].pid != -1 && t[i].priority != INTERRUPT) ==> b' == b && l' == l
    ensures ReadyBoot(t, i + 1, b', l')
  {
  }

  lemma PcbBootStep(t: seq<ProcInit>, i: int, us: seq<bool>, st: seq<State>, pr: seq<int>,
                    us': seq<bool>, st': seq<State>, pr': seq<int>)
    requires 0 <= i < |t| && PcbBoot(t, i, us, st, pr)
    requires t[i].pid != -1 ==> us' == us[i := true] && st' == st[i := New] && pr' == pr[i := t[i].priority]
    requires t[i].pid == -1 ==> us' == us && st' == st && pr' == pr
    ensures PcbBoot(t, i + 1, us', st', pr')
  {
  }

  lemma StacksBootStep(t: seq<ProcInit>, i: int, used: seq<bool>, sp: seq<int>, words: map<int, int>, top: int, top0: int,
                       top': int, s: int, words': map<int, int>)
    requires 0 <= i < |t| == NUM_PROCS && |used| == NUM_PROCS && |sp| == NUM_PROCS
    requires StacksBoot(t, i, used, sp, words, top, top0)
    requires forall p :: 0 <= p <= i && (used[p] || p == i) ==> t[p].stackSize >= 0
    requires top - t[i].stackSize - 68 <= top' <= top - t[i].stackSize - 64
    requires top % 8 == 0 && t[i].stackSize % 4 == 0 ==> top' % 8 == 0
    requires s == top - 32 && FrameAt(words', s, t[i].entry)
    requires forall a :: a in words && !(s <= a < top) ==> a in words' && words'[a] == words[a]
    ensures StacksBoot(t, i + 1, used[i := true], sp[i := s], words', top', top0)
  {
    var u, v := used[i := true], sp[i := s];
    forall p | 0 <= p < i + 1 && u[p]
      ensures FrameAt(words', v[p], t[p].entry)
    {
      if p < i {
        FrameKept(words, words', sp[p], t[p].entry, s, top);
      }
    }
  }

  /** The receiver a send wakes leaves the sender's requeue condition as it was, and Send is that wake followed by the yield when it preempts. */
  lemma WakeForSend(s: Sched, pid: int)
    requires Sized(s) && IsPid(s.current) && IsPid(pid) && pid != s.current
    requires s.state[pid] == BlockedMsg && HIGH <= s.priority[pid] <= HIDDEN
    requires Requeues(s.current, s.state, s.priority) ==> s.rl[s.current] == NULL
    ensures var w := Wake(s, pid);
      && w.current == s.current && w.priority == s.priority
      && (Requeues(w.current, w.state, w.priority) ==> w.rl[w.current] == NULL)
      && Send(s, pid) == if Preempts(s, pid) then Release(w) else (RTX_OK, w)
  {
  }

  /** Between calls, a receiver blocked on a message is on no ready level and is not the sender, and a sender that would be requeued is on no ready level. */
  lemma SendReady(s: Sched, pid: int)
    requires Sized(s) && Steady(s) && IsPid(s.current) && IsPid(pid)
    ensures s.state[pid] == BlockedMsg ==> s.rl[pid] == NULL && s.priority[pid] <= HIDDEN && pid != s.current
    ensures Requeues(s.current, s.state, s.priority) ==> s.rl[s.current] == NULL
  {
  }

  class Kernel {
    const ready: PQ
    const blocked: PQ
    const pool: Pool
    const stacks: Stacks

    /* PCB fields, indexed by pid */
    var state: seq<State>
    var priority: seq<int>
    var sp: seq<int>
    /** Whether process_init initialised the slot (its table row had m_pid != -1). */
    var used: seq<bool>

    /** gp_current_process; NULL until the first k_release_processor. */
    var current: int
    var timerPending: bool
    var uartPending: bool
    /** The processor's main stack pointer. */
    var msp: int
    /** g_timer, in ticks. */
    var timer: int

    ghost function Repr(): set<object> {
      {ready, ready.front, ready.back, ready.next, blocked, blocked.front, blocked.back, blocked.next,
       pool, pool.link, pool.sendPid, pool.recvPid, pool.expiry}
    }

    /** The ten arrays of the two queues and the pool are distinct. */
    ghost predicate Disjoint() {
      && ready != blocked
      && ready.front != blocked.front && ready.front != blocked.back && ready.front != blocked.next
      && ready.back != blocked.front && ready.back != blocked.back && ready.back != blocked.next
      && ready.next != blocked.front && ready.next != blocked.back && ready.next != blocked.next
      && ArraysApart(ready.front, pool) && ArraysApart(ready.back, pool) && ArraysApart(ready.next, pool)
      && ArraysApart(blocked.front, pool) && ArraysApart(blocked.back, pool) && ArraysApart(blocked.next, pool)
    }

    /** The queues and the pool are well formed and apart. */
    ghost predicate Parts()
      reads Repr()
    {
      && Disjoint()
      && ready.Valid() && blocked.Valid() && pool.Valid()
    }

    /** The scheduling state as a value. */
    ghost function Snap(): Sched
      reads this, ready, blocked
    {
      Sched(state, priority, used, current, ready.buckets, ready.loc, blocked.buckets, blocked.loc,
            sp, msp, timerPending, uartPending)
    }

    /** The kernel between calls. */
    ghost predicate Valid()
      reads this, Repr()
    {
      Parts() && Sized(Snap()) && Steady(Snap())
    }

    /** The kernel at a call of k_release_processor: the current process may have just blocked itself. */
    ghost predicate Yieldable()
      reads this, Repr()
    {
      Parts() && Sized(Snap()) && Yielding(Snap())
    }

    /**
     * memory_init: the memory pool with its free list, no process
     * initialised yet, empty queues, and gp_stack at the end of RAM.
     */
    constructor MemoryInit()
      ensures Disjoint() && ready.Valid() && blocked.Valid() && pool.Valid()
      ensures Pristine()
      ensures stacks.top == RAM_END_ADDR && stacks.top % 8 == 0 && stacks.words == map[]
      ensures pool.head == NUM_MEMORY_BLOCKS - 1 && pool.free == InitialFree()
      ensures forall b :: 0 <= b < NUM_MEMORY_BLOCKS ==> pool.link[b] == b - 1
    {
      var r := new PQ();
      var b := new PQ();
      var m := new Pool();
      var k := new Stacks();
      ready, blocked, pool, stacks := r, b, m, k;
      state := seq(NUM_PROCS, _ => New);
      priority := seq(NUM_PROCS, _ => HIGH);
      sp := seq(NUM_PROCS, _ => 0);
      used := seq(NUM_PROCS, _ => false);
      current := NULL;
      timerPending := false;
      uartPending := false;
      msp := 0;
      timer := 0;
    }

    /** The state process_init starts from. */
    ghost predicate Pristine()
      reads this, ready, blocked, pool
    {
      && |state| == NUM_PROCS && |priority| == NUM_PROCS && |sp| == NUM_PROCS && |used| == NUM_PROCS
      && (forall p :: 0 <= p < NUM_PROCS ==> !used[p] && state[p] == New && priority[p] == HIGH)
      && current == NULL && !timerPending && !uartPending
      && |ready.buckets| == NUM_PRIORITIES && |blocked.buckets| == NUM_PRIORITIES
      && |ready.loc| == NUM_PROCS && |blocked.loc| == NUM_PROCS
      && (forall p :: 0 <= p < NUM_PRIORITIES ==> ready.buckets[p] == [] && blocked.buckets[p] == [])
      && (forall p :: 0 <= p < NUM_PROCS ==> ready.loc[p] == NULL && blocked.loc[p] == NULL)
      && |pool.mail| == NUM_PROCS && |pool.owner| == NUM_MEMORY_BLOCKS
      && (forall p :: 0 <= p < NUM_PROCS ==> pool.mail[p] == []) && pool.delayed == []
      && (forall b :: 0 <= b < NUM_MEMORY_BLOCKS ==> pool.owner[b] == Free)
    }

    /**
     * process_init, from the table that set_test_procs, set_sys_procs and
     * set_i_procs leave: every used slot gets state NEW, its table priority,
     * an empty mailbox and a stack holding its initial frame; the used slots
     * that are not interrupt processes are pushed on the ready queue in
     * slot order, and the stacks are carved one below the other.
     */
    method ProcessInit(afterTests: seq<ProcInit>, e: Entries)
      requires Disjoint() && ready.Valid() && blocked.Valid() && pool.Valid() && Pristine()
      requires IndexedTable(afterTests)
      requires forall i :: 0 <= i < NUM_PROCS && afterTests[i].pid != -1 ==> UsableRow(afterTests[i])
      modifies this, ready, ready.front, ready.back, ready.next, stacks
      ensures Valid()
      ensures var t := BootTable(afterTests, e);
        && PcbBoot(t, NUM_PROCS, used, state, priority)
        && ReadyBoot(t, |t|, ready.buckets, ready.loc)
        && StacksBoot(t, NUM_PROCS, used, sp, stacks.words, stacks.top, old(stacks.top))
        && forall i :: 0 <= i < NUM_PROCS ==> pool.mail[i] == []
      ensures current == NULL && !timerPending && !uartPending && blocked.buckets == old(blocked.buckets)
    {
      var t := BootTable(afterTests, e);
      BootTableRows(afterTests, e);
      InitKernel(t);
    }

    /** process_init from the finished table t. */
    method InitKernel(t: seq<ProcInit>)
      requires Disjoint() && ready.Valid() && blocked.Valid() && pool.Valid() && Pristine()
      requires IndexedTable(t) && (forall i :: 0 <= i < NUM_PROCS && t[i].pid != -1 ==> UsableRow(t[i]))
      requires t[PID_TIMER_IPROC].pid != -1 && t[PID_UART_IPROC].pid != -1
      requires t[PID_TIMER_IPROC].priority == INTERRUPT && t[PID_UART_IPROC].priority == INTERRUPT
      requires t[PID_NULL].pid != -1 && t[PID_NULL].priority == HIDDEN
      modifies this, ready, ready.front, ready.back, ready.next, stacks
      ensures Valid()
      ensures PcbBoot(t, NUM_PROCS, used, state, priority)
      ensures ReadyBoot(t, |t|, ready.buckets, ready.loc)
      ensures StacksBoot(t, NUM_PROCS, used, sp, stacks.words, stacks.top, old(stacks.top))
      ensures forall i :: 0 <= i < NUM_PROCS ==> pool.mail[i] == []
      ensures current == NULL && !timerPending && !uartPending && blocked.buckets == old(blocked.buckets)
    {
      InitTable(t);
      BootValid(t);
    }

    /** process_init's loop over the table t, leaving the rest of the kernel as it was. */
    method InitTable(t: seq<ProcInit>)
      requires ready.Valid() && IndexedTable(t)
      requires forall i :: 0 <= i < NUM_PROCS && t[i].pid != -1 ==> UsableRow(t[i])
      requires PcbBoot(t, 0, used, state, priority) && |sp| == NUM_PROCS
      requires ReadyBoot(t, 0, ready.buckets, ready.loc)
      modifies this, ready, ready.front, ready.back, ready.next, stacks
      ensures ready.Valid() && |sp| == NUM_PROCS
      ensures PcbBoot(t, NUM_PROCS, used, state, priority) && ReadyBoot(t, |t|, ready.buckets, ready.loc)
      ensures StacksBoot(t, NUM_PROCS, used, sp, stacks.words, stacks.top, old(stacks.top))
      ensures current == old(current) && timerPending == old(timerPending) && uartPending == old(uartPending)
    {
      ghost var flags := (current, timerPending, uartPending);
      var us, st, pr, sps := InitRows(t, used, state, priority, sp);
      used, state, priority, sp := us, st, pr, sps;
      assert flags == (current, timerPending, uartPending);
    }

    /** Once process_init's loop is done, the kernel is in its between-calls state. */
    lemma BootValid(t: seq<ProcInit>)
      requires Disjoint() && ready.Valid() && blocked.Valid() && pool.Valid()
      requires IndexedTable(t) && (forall i :: 0 <= i < NUM_PROCS && t[i].pid != -1 ==> UsableRow(t[i]))
      requires t[PID_TIMER_IPROC].pid != -1 && t[PID_UART_IPROC].pid != -1
      requires t[PID_TIMER_IPROC].priority == INTERRUPT && t[PID_UART_IPROC].priority == INTERRUPT
      requires t[PID_NULL].pid != -1 && t[PID_NULL].priority == HIDDEN
      requires PcbBoot(t, NUM_PROCS, used, state, priority) && ReadyBoot(t, |t|, ready.buckets, ready.loc)
      requires |sp| == NUM_PROCS && current == NULL
      requires |blocked.buckets| == NUM_PRIORITIES && (forall p :: 0 <= p < NUM_PRIORITIES ==> blocked.buckets[p] == [])
      requires |blocked.loc| == NUM_PROCS && (forall p :: 0 <= p < NUM_PROCS ==> blocked.loc[p] == NULL)
      ensures Valid()
    {
      ready.Pids();
      BootSchedOk(t, Snap());
    }

    /** process_init's loop over the rows of table t, building the PCB fields from used0, state0, priority0 and sp0. */
    method InitRows(t: seq<ProcInit>, used0: seq<bool>, state0: seq<State>, priority0: seq<int>, sp0: seq<int>)
      returns (us: seq<bool>, st: seq<State>, pr: seq<int>, sps: seq<int>)
      requires ready.Valid() && IndexedTable(t)
      requires forall i :: 0 <= i < NUM_PROCS && t[i].pid != -1 ==> UsableRow(t[i])
      requires PcbBoot(t, 0, used0, state0, priority0) && |sp0| == NUM_PROCS
      requires ReadyBoot(t, 0, ready.buckets, ready.loc)
      modifies ready, ready.front, ready.back, ready.next, stacks
      ensures ready.Valid() && |sps| == NUM_PROCS
      ensures PcbBoot(t, NUM_PROCS, us, st, pr) && ReadyBoot(t, |t|, ready.buckets, ready.loc)
      ensures StacksBoot(t, NUM_PROCS, us, sps, stacks.words, stacks.top, old(stacks.top))
    {
      ghost var top0 := stacks.top;
      us, st, pr, sps := used0, state0, priority0, sp0;
      for i := 0 to NUM_PROCS
        invariant ready.Valid() && |sps| == NUM_PROCS
        invariant PcbBoot(t, i, us, st, pr) && ReadyBoot(t, i, ready.buckets, ready.loc)
        invariant StacksBoot(t, i, us, sps, stacks.words, stacks.top, top0)
      {
        us, st, pr, sps := InitRow(t, i, us, st, pr, sps, top0);
      }
    }

    /**
     * One pass of process_init's loop: a used row gets state NEW, its
     * priority and a stack holding its initial frame, and goes on the ready
     * queue unless it is an interrupt process; an unused row is skipped.
     */
    method InitRow(t: seq<ProcInit>, i: int, us: seq<bool>, st: seq<State>, pr: seq<int>, sps: seq<int>,
                   ghost top0: int)
      returns (us': seq<bool>, st': seq<State>, pr': seq<int>, sps': seq<int>)
      requires ready.Valid() && IndexedTable(t) && 0 <= i < NUM_PROCS && |sps| == NUM_PROCS
      requires forall i :: 0 <= i < NUM_PROCS && t[i].pid != -1 ==> UsableRow(t[i])
      requires PcbBoot(t, i, us, st, pr) && ReadyBoot(t, i, ready.buckets, ready.loc)
      requires StacksBoot(t, i, us, sps, stacks.words, stacks.top, top0)
      modifies ready, ready.front, ready.back, ready.next, stacks
      ensures ready.Valid() && |sps'| == NUM_PROCS
      ensures PcbBoot(t, i + 1, us', st', pr') && ReadyBoot(t, i + 1, ready.buckets, ready.loc)
      ensures StacksBoot(t, i + 1, us', sps', stacks.words, stacks.top, top0)
    {
      ghost var (b0, l0, w0, top1) := (ready.buckets, ready.loc, stacks.words, stacks.top);
      us', st', pr', sps' := us, st, pr, sps;
      if t[i].pid != -1 {
        var row := t[i];
        us', st', pr' := us[i := true], st[i := New], pr[i := row.priority];
        var top := stacks.Alloc(row.stackSize);
        var s := stacks.PushFrame(top, row.entry);
        sps' := sps[i := s];
        if row.priority != INTERRUPT {
          ready.Push(i, row.priority);
        }
        StacksBootStep(t, i, us, sps, w0, top1, top0, stacks.top, s, stacks.words);
      }
      PcbBootStep(t, i, us, st, pr, us', st', pr');
      ReadyBootStep(t, i, b0, l0, ready.buckets, ready.loc);
    }
 
    /* -------------------------------------------------------------- */
    /* Scheduling and context switch                                  */
    /* -------------------------------------------------------------- */

    /**
     * scheduler: an outgoing process that is not an interrupt process and
     * is NEW, READY or RUN goes back on the ready queue (at the front of its
     * level while a flag is pending, at the back otherwise); then the timer
     * interrupt process is picked if its flag is set, else the UART one if
     * its flag is set, else the pop of the ready queue. Only the flag acted
     * on is cleared.
     */
    method Scheduler() returns (next: int)
      requires ready.Valid() && ready != blocked && Sized(Snap())
      requires Requeues(current, state, priority) ==> ready.loc[current] == NULL
      modifies this`timerPending, this`uartPending, ready, ready.front, ready.back, ready.next
      ensures ready.Valid()
      ensures (next, Snap()) == Schedule(old(Snap()))
    {
      if Requeues(current, state, priority) {
        if timerPending || uartPending {
          ready.PushFront(current, priority[current]);
        } else {
          ready.Push(current, priority[current]);
        }
      }
      ghost var rq := ready.loc;
      if timerPending {
        timerPending := false;
        next := PID_TIMER_IPROC;
      } else if uartPending {
        uartPending := false;
        next := PID_UART_IPROC;
      } else {
        next := ready.Pop();
        assert ready.loc == Dequeued(rq, next);
      }
    }

    /**
     * process_switch's state logic, switching from prev to the current
     * process (the target), as Switch states it.
     */
    method ProcessSwitch(prev: int) returns (r: int)
      requires IsPid(current) && IsPid(prev) && |state| == NUM_PROCS && |sp| == NUM_PROCS
      modifies this`state, this`sp, this`msp, this`current
      ensures (r, Snap()) == Switch(old(Snap()), prev)
    {
      var st := state[current];
      if st == New {
        if current != prev && state[prev] != New {
          state := state[prev := Park(state[prev])];
          sp := sp[prev := msp];
        }
        state := state[current := Run];
        msp := sp[current];
        return RTX_OK;
      }
      if current != prev {
        if st == Ready {
          state := state[prev := Park(state[prev])];
          sp := sp[prev := msp];
          state := state[current := Run];
          msp := sp[current];
        } else {
          current := prev;
          return RTX_ERR;
        }
      }
      return RTX_OK;
    }

    /**
     * k_release_processor: the scheduler picks the next process and the
     * processor is switched to it, as Release states it. Returns RTX_ERR,
     * with the current process kept, only when there is nothing to run.
     */
    method ReleaseProcessor() returns (r: int)
      requires Parts() && Sized(Snap())
      requires Requeues(current, state, priority) ==> ready.loc[current] == NULL
      modifies this`current, this`state, this`sp, this`msp, this`timerPending, this`uartPending
      modifies ready, ready.front, ready.back, ready.next
      ensures Parts()
      ensures (r, Snap()) == Release(old(Snap()))
    {
      var prev := current;
      var next := Scheduler();
      if next == NULL {
        // the source sets the current process to NULL here and reverts it at once
        return RTX_ERR;
      }
      current := next;
      if prev == NULL {
        prev := current;
      }
      var _ := ProcessSwitch(prev);
      return RTX_OK;
    }

    /* -------------------------------------------------------------- */
    /* Messages                                                       */
    /* -------------------------------------------------------------- */

    /** The queue facts the scheduling lemmas take from the two well-formed queues. */
    lemma QueuesCoherent()
      requires ready.Valid() && blocked.Valid()
      ensures Coherent(Snap())
    {
      ready.Pids();
      blocked.Pids();
    }

    /**
     * k_send_message: the held block b goes to the back of pid's mailbox,
     * and a receiver blocked on a message is woken, with a yield when it
     * preempts the sender, as Send states it. No header is written, so the
     * receiver is told the m_send_pid the block already carried, which
     * need not be the sender (Memory.UnstampedSendExample).
     */
    method SendMessage(pid: int, b: int) returns (r: int)
      requires Valid() && IsPid(current) && IsPid(pid) && IsBlock(b) && pool.owner[b] == Held
      modifies this`current, this`state, this`sp, this`msp, this`timerPending, this`uartPending
      modifies ready, ready.front, ready.back, ready.next, pool, pool.link
      ensures Valid()
      ensures pool.mail == old(pool.mail)[pid := old(pool.mail)[pid] + [b]]
      ensures pool.owner == old(pool.owner)[b := Mailbox(pid)]
      ensures pool.free == old(pool.free) && pool.delayed == old(pool.delayed)
      ensures pool.sendPid[..] == old(pool.sendPid[..])
      ensures old(pool.mail[pid]) == [] ==> Front(pool.mail, pool.sendPid[..], pid) == Some((b, old(pool.sendPid[b])))
      ensures (r, Snap()) == Send(old(Snap()), pid)
    {
      Deposit(pid, b);
      r := Notify(pid);
    }

    /** k_send_message after enqueue_message: the receiver is woken if it is blocked on a message, with a yield when it preempts. */
    method Notify(pid: int) returns (r: int)
      requires Valid() && IsPid(current) && IsPid(pid)
      modifies this`current, this`state, this`sp, this`msp, this`timerPending, this`uartPending
      modifies ready, ready.front, ready.back, ready.next
      ensures Valid()
      ensures (r, Snap()) == Send(old(Snap()), pid)
    {
      ghost var s0 := Snap();
      QueuesCoherent();
      SendKeeps(s0, pid);
      SendReady(s0, pid);
      if state[pid] == BlockedMsg {
        WakeForSend(s0, pid);
        WakeUp(pid);
        if priority[pid] < priority[current] && priority[current] != INTERRUPT {
          r := ReleaseProcessor();
          return;
        }
      }
      r := RTX_OK;
    }

    /** enqueue_message: the held block b goes to the back of pid's mailbox. */
    method Deposit(pid: int, b: int)
      requires Valid() && IsPid(pid) && IsBlock(b) && pool.owner[b] == Held
      modifies pool, pool.link
      ensures Valid() && Snap() == old(Snap())
      ensures pool.mail == old(pool.mail)[pid := old(pool.mail)[pid] + [b]]
      ensures pool.owner == old(pool.owner)[b := Mailbox(pid)]
      ensures pool.free == old(pool.free) && pool.delayed == old(pool.delayed)
    {
      pool.Enqueue(pid, b);
    }

    /** A process on no level of the ready queue becomes READY and goes to the back of its level (pq_push_ready). */
    method WakeUp(pid: int)
      requires Parts() && Sized(Snap()) && IsPid(pid) && HIGH <= priority[pid] <= HIDDEN && ready.loc[pid] == NULL
      modifies this`state, ready, ready.front, ready.back, ready.next
      ensures Parts()
      ensures Snap() == Wake(old(Snap()), pid)
    {
      state := state[pid := Ready];
      ready.Push(pid, priority[pid]);
    }
  
    /**
     * k_send_message_envelope: create_message_headers stamps the held block
     * b with the sender (the current process), the receiver and a zero
     * expiry, and k_send_message sends it.
     */
    method SendMessageEnvelope(pid: int, b: int) returns (r: int)
      requires Valid() && IsPid(current) && IsPid(pid) && IsBlock(b) && pool.owner[b] == Held
      modifies this`current, this`state, this`sp, this`msp, this`timerPending, this`uartPending
      modifies ready, ready.front, ready.back, ready.next, pool, pool.link, pool.sendPid, pool.recvPid, pool.expiry
      ensures Valid()
      ensures pool.sendPid[b] == old(current) && pool.recvPid[b] == pid && pool.expiry[b] == 0
      ensures pool.mail == old(pool.mail)[pid := old(pool.mail)[pid] + [b]]
      ensures pool.owner == old(pool.owner)[b := Mailbox(pid)]
      ensures pool.free == old(pool.free) && pool.delayed == old(pool.delayed)
      ensures old(pool.mail[pid]) == [] ==> Front(pool.mail, pool.sendPid[..], pid) == Some((b, old(current)))
      ensures (r, Snap()) == Send(old(Snap()), pid)
    {
      Stamp(b, pid);
      ghost var sender := current;
      assert pool.sendPid[b] == sender && pool.mail == old(pool.mail);
      r := SendMessage(pid, b);
    }

    /**
     * k_delayed_send: the block is stamped as by k_send_message_envelope;
     * with no delay it is sent at once, otherwise it joins the delayed
     * queue, ordered by expiry g_timer + delay, and nothing else changes.
     */
    method DelayedSend(pid: int, b: int, delay: int) returns (r: int)
      requires Valid() && IsPid(current) && IsPid(pid) && IsBlock(b) && pool.owner[b] == Held
      modifies this`current, this`state, this`sp, this`msp, this`timerPending, this`uartPending
      modifies ready, ready.front, ready.back, ready.next, pool, pool.link, pool.sendPid, pool.recvPid, pool.expiry
      ensures Valid()
      ensures pool.sendPid[b] == old(current) && pool.recvPid[b] == pid
      ensures delay == 0 ==>
        && pool.mail == old(pool.mail)[pid := old(pool.mail)[pid] + [b]]
        && pool.owner == old(pool.owner)[b := Mailbox(pid)]
        && pool.delayed == old(pool.delayed)
        && (r, Snap()) == Send(old(Snap()), pid)
      ensures delay != 0 ==>
        && pool.expiry[b] == timer + delay
        && pool.delayed == InsertByExpiry(old(pool.delayed), old(pool.expiry[..])[b := 0], b, timer + delay)
        && pool.owner == old(pool.owner)[b := Delayed]
        && pool.mail == old(pool.mail)
        && r == RTX_OK && Snap() == old(Snap())
      ensures pool.free == old(pool.free)
    {
      if delay == 0 {
        r := SendMessageEnvelope(pid, b);
      } else {
        Defer(pid, b, delay, pool.delayed, pool.expiry[..]);
        r := RTX_OK;
      }
    }

    /** k_delayed_send with a non-zero delay: the stamped block joins the delayed queue, and nothing else changes. */
    method Defer(pid: int, b: int, delay: int, ghost d: seq<int>, ghost ex: seq<int>)
      requires Valid() && IsPid(pid) && IsBlock(b) && pool.owner[b] == Held
      requires d == pool.delayed && ex == pool.expiry[..]
      modifies pool, pool.link, pool.sendPid, pool.recvPid, pool.expiry
      ensures Valid() && Snap() == old(Snap())
      ensures pool.sendPid[b] == current && pool.recvPid[b] == pid && pool.expiry[b] == timer + delay
      ensures pool.delayed == InsertByExpiry(d, ex[b := 0], b, timer + delay)
      ensures pool.owner == old(pool.owner)[b := Delayed]
      ensures pool.free == old(pool.free) && pool.mail == old(pool.mail)
    {
      Stamp(b, pid);
      Postpone(b, delay);
    }

    /**
     * create_message_headers: the held block b names the current process as
     * sender and pid as receiver, with a zero expiry.
     */
    method Stamp(b: int, pid: int)
      requires Parts() && IsPid(pid) && IsBlock(b) && pool.owner[b] == Held
      modifies pool.link, pool.sendPid, pool.recvPid, pool.expiry
      ensures Parts()
      ensures pool.sendPid[b] == current && pool.recvPid[b] == pid && pool.expiry[..] == old(pool.expiry[..])[b := 0]
    {
      pool.SetHeaders(b, current, pid);
    }

    /** insert_message_delayed: the held block b joins the delayed queue with expiry g_timer + delay. */
    method Postpone(b: int, delay: int)
      requires Parts() && IsBlock(b) && pool.owner[b] == Held && IsPid(pool.recvPid[b])
      modifies pool, pool.link, pool.expiry
      ensures Parts()
      ensures pool.expiry[b] == timer + delay
      ensures pool.delayed == InsertByExpiry(old(pool.delayed), old(pool.expiry[..]), b, timer + delay)
      ensures pool.owner == old(pool.owner)[b := Delayed]
      ensures pool.free == old(pool.free) && pool.mail == old(pool.mail)
    {
      pool.InsertDelayed(b, delay, timer);
    }


    /**
     * One pass of k_receive_message's loop for the current process: a
     * non-empty mailbox gives up its front message, and the m_send_pid it
     * carries when a sender is asked for (Front); an empty one blocks the caller on a message
     * and yields, and the call returns no message yet.
     */
    method ReceiveMessage(wantSender: bool) returns (b: int, sender: Option<int>)
      requires Valid() && IsPid(current)
      requires pool.mail[current] == [] ==> current != PID_NULL && priority[current] != INTERRUPT
      modifies this`current, this`state, this`sp, this`msp, this`timerPending, this`uartPending
      modifies ready, ready.front, ready.back, ready.next, pool
      ensures Valid()
      ensures old(pool.mail[current]) != [] ==>
        && b == old(pool.mail[current][0]) && IsBlock(b)
        && Front(old(pool.mail), old(pool.sendPid[..]), old(current)) == Some((b, pool.sendPid[b]))
        && pool.mail == old(pool.mail)[old(current) := old(pool.mail[current][1..])]
        && pool.owner == old(pool.owner)[b := Held]
        && sender == (if wantSender then Some(pool.sendPid[b]) else None)
        && Snap() == old(Snap())
      ensures old(pool.mail[current]) == [] ==>
        && b == NULL && sender == None && pool.mail == old(pool.mail) && pool.owner == old(pool.owner)
        && Snap() == AwaitMessage(old(Snap())).1
      ensures pool.free == old(pool.free) && pool.delayed == old(pool.delayed)
      ensures pool.sendPid[..] == old(pool.sendPid[..])
    {
      b := pool.Dequeue(current);
      if b == NULL {
        BlockOnMessage();
        sender := None;
        return;
      }
      sender := if wantSender then Some(pool.sendPid[b]) else None;
    }

    /** The current process becomes BLOCKED_MSG and yields. */
    method BlockOnMessage()
      requires Valid() && IsPid(current) && current != PID_NULL && priority[current] != INTERRUPT
      modifies this`current, this`state, this`sp, this`msp, this`timerPending, this`uartPending
      modifies ready, ready.front, ready.back, ready.next
      ensures Valid()
      ensures Snap() == AwaitMessage(old(Snap())).1
    {
      ghost var s0 := Snap();
      QueuesCoherent();
      AwaitMessageKeeps(s0);
      state := state[current := BlockedMsg];
      var _ := ReleaseProcessor();
    }

    /**
     * k_request_memory_block, corrected: the head of the free list when
     * there is one; otherwise a process joins the back of its level of the
     * blocked queue as BLOCKED_MEMORY and yields, and the call returns no
     * block yet, while an interrupt process, which cannot wait, gets NULL
     * and nothing changes.
     */
    method RequestMemoryBlock() returns (b: int)
      requires Valid() && IsPid(current)
      requires pool.free == [] ==> current != PID_NULL
      modifies this`current, this`state, this`sp, this`msp, this`timerPending, this`uartPending
      modifies ready, ready.front, ready.back, ready.next, blocked, blocked.front, blocked.back, blocked.next, pool
      ensures Valid()
      ensures old(pool.free) != [] ==>
        && b == old(pool.free[0]) && IsBlock(b) && old(pool.owner[b]) == Free
        && pool.free == old(pool.free[1..]) && pool.owner == old(pool.owner)[b := Held]
        && Snap() == old(Snap())
      ensures old(pool.free) == [] ==> b == NULL && pool.free == [] && pool.owner == old(pool.owner)
      ensures old(pool.free) == [] && old(priority[current]) != INTERRUPT ==> Snap() == AwaitMemory(old(Snap())).1
      ensures old(pool.free) == [] && old(priority[current]) == INTERRUPT ==> Snap() == old(Snap())
      ensures pool.mail == old(pool.mail) && pool.delayed == old(pool.delayed)
    {
      b := pool.Take();
      if b == NULL && priority[current] != INTERRUPT {
        BlockOnMemory();
      }
    }

    /** The current process becomes BLOCKED_MEMORY, waits at the back of its level of the blocked queue, and yields. */
    method BlockOnMemory()
      requires Valid() && IsPid(current) && current != PID_NULL && priority[current] != INTERRUPT
      modifies this`current, this`state, this`sp, this`msp, this`timerPending, this`uartPending
      modifies ready, ready.front, ready.back, ready.next, blocked, blocked.front, blocked.back, blocked.next
      ensures Valid()
      ensures Snap() == AwaitMemory(old(Snap())).1
    {
      ghost var s0 := Snap();
      QueuesCoherent();
      AwaitMemoryKeeps(s0);
      ShelveCurrent();
      var _ := ReleaseProcessor();
      assert Steady(Snap());
    }

    /** The current process becomes BLOCKED_MEMORY and goes to the back of its level of the blocked queue. */
    method ShelveCurrent()
      requires Parts() && Sized(Snap()) && IsPid(current) && priority[current] <= HIDDEN && blocked.loc[current] == NULL
      modifies this`state, blocked, blocked.front, blocked.back, blocked.next
      ensures Parts()
      ensures Snap() == Shelve(old(Snap()))
    {
      state := state[current := BlockedMemory];
      blocked.Push(current, priority[current]);
    }

    /**
     * k_release_memory_block: the block goes back to the head of the free
     * list; the process waiting longest at the highest priority for memory,
     * if any, is made READY and the caller yields, as ReleaseBlock states it. It
     * always returns RTX_OK.
     */
    method ReleaseMemoryBlock(b: int) returns (r: int)
      requires Valid() && IsPid(current) && IsBlock(b) && pool.owner[b] == Held
      modifies this`current, this`state, this`sp, this`msp, this`timerPending, this`uartPending
      modifies ready, ready.front, ready.back, ready.next, blocked, blocked.front, blocked.back, blocked.next
      modifies pool, pool.link
      ensures Valid() && r == RTX_OK
      ensures pool.free == [b] + old(pool.free) && pool.owner == old(pool.owner)[b := Free]
      ensures pool.mail == old(pool.mail) && pool.delayed == old(pool.delayed)
      ensures Snap() == ReleaseBlock(old(Snap())).1
    {
      WakeWaiter();
      Reclaim(b);
      r := RTX_OK;
    }

    /** The waiter k_release_memory_block wakes, if any, and the yield that follows. */
    method WakeWaiter()
      requires Valid() && IsPid(current)
      modifies this`current, this`state, this`sp, this`msp, this`timerPending, this`uartPending
      modifies ready, ready.front, ready.back, ready.next, blocked, blocked.front, blocked.back, blocked.next
      ensures Valid() && Snap() == ReleaseBlock(old(Snap())).1
    {
      ghost var s0 := Snap();
      QueuesCoherent();
      ReleaseBlockKeeps(s0);
      var w := UnblockWaiter();
      if w != NULL {
        var _ := ReleaseProcessor();
      }
      assert Steady(Snap());
    }

    /** The held block b goes back to the head of the free list. */
    method Reclaim(b: int)
      requires Parts() && IsBlock(b) && pool.owner[b] == Held
      modifies pool, pool.link
      ensures Parts()
      ensures pool.free == [b] + old(pool.free) && pool.owner == old(pool.owner)[b := Free]
      ensures pool.mail == old(pool.mail) && pool.delayed == old(pool.delayed)
    {
      pool.Give(b);
    }

    /** proc_priority_pop_blocked, then the popped process, if any, made READY at the back of its ready level. */
    method UnblockWaiter() returns (w: int)
      requires Parts() && Sized(Snap()) && Steady(Snap()) && IsPid(current)
      modifies this`state, ready, ready.front, ready.back, ready.next, blocked, blocked.front, blocked.back, blocked.next
      ensures Parts() && Sized(Snap()) && AtOwnLevels(old(Snap()))
      ensures (w, Snap()) == Unblock(old(Snap()))
      ensures w != NULL ==> ready.loc[current] == NULL || !Requeues(current, state, priority)
    {
      ghost var s0 := Snap();
      QueuesCoherent();
      UnblockKeeps(s0);
      w := TakeWaiter();
      if w != NULL {
        WakeUp(w);
      }
    }

    /** proc_priority_pop_blocked: the front of the highest non-empty level of the blocked queue leaves it. */
    method TakeWaiter() returns (w: int)
      requires Parts() && Sized(Snap()) && Steady(Snap()) && IsPid(current)
      modifies blocked, blocked.front, blocked.back, blocked.next
      ensures Parts() && Sized(Snap())
      ensures w == PopHighest(old(blocked.buckets)).0
      ensures w == NULL ==> Snap() == old(Snap())
      ensures w != NULL ==>
        && Snap() == old(Snap()).(blocked := PopHighest(old(blocked.buckets)).1, bl := Dequeued(old(blocked.loc), w))
        && IsPid(w) && HIGH <= priority[w] <= HIDDEN && ready.loc[w] == NULL
    {
      ghost var s0 := Snap();
      QueuesCoherent();
      UnblockKeeps(s0);
      w := blocked.Pop();
    }

    /* -------------------------------------------------------------- */
    /* Priorities                                                     */
    /* -------------------------------------------------------------- */

    /**
     * k_set_process_priority, with the queue lookup made safe: RTX_ERR for
     * a pid outside 1..6 or a priority outside HIGH..LOWEST; otherwise the
     * process gets the new priority, is moved to its new level of the queue
     * its state calls for, and the caller yields, as SetPriority states it.
     */
    method SetProcessPriority(pid: int, prio: int) returns (r: int)
      requires Valid() && IsPid(current)
      modifies this`current, this`state, this`priority, this`sp, this`msp, this`timerPending, this`uartPending
      modifies ready, ready.front, ready.back, ready.next, blocked, blocked.front, blocked.back, blocked.next
      ensures Valid()
      ensures (r, Snap()) == SetPriority(old(Snap()), pid, prio)
    {
      if pid < 1 || pid > 6 {
        return RTX_ERR;
      }
      if prio < HIGH || prio > LOWEST {
        return RTX_ERR;
      }
      if pid == current {
        r := SetOwnPriority(prio);
      } else {
        r := MoveProcess(pid, prio);
      }
    }

    /** k_set_process_priority for the caller itself: the new priority, then a yield. */
    method SetOwnPriority(prio: int) returns (r: int)
      requires Valid() && IsPid(current) && PriorityArgsOk(current, prio)
      modifies this`current, this`state, this`priority, this`sp, this`msp, this`timerPending, this`uartPending
      modifies ready, ready.front, ready.back, ready.next
      ensures Valid()
      ensures (r, Snap()) == Release(old(Snap()).(priority := old(priority)[old(current) := prio]))
    {
      ghost var s0 := Snap();
      QueuesCoherent();
      SetPriorityKeeps(s0, current, prio);
      priority := priority[current := prio];
      assert Snap() == s0.(priority := s0.priority[s0.current := prio]);
      r := ReleaseProcessor();
      assert Steady(Snap());
    }

    /** k_set_process_priority for a process other than the caller: off its queue, repositioned, and the caller yields. */
    method MoveProcess(pid: int, prio: int) returns (r: int)
      requires Valid() && IsPid(current) && PriorityArgsOk(pid, prio) && pid != current
      modifies this`current, this`state, this`priority, this`sp, this`msp, this`timerPending, this`uartPending
      modifies ready, ready.front, ready.back, ready.next, blocked, blocked.front, blocked.back, blocked.next
      ensures Valid()
      ensures (r, Snap()) == Release(Reposition(Unqueue(old(Snap()), pid).1, pid, prio))
    {
      ghost var s0 := Snap();
      QueuesCoherent();
      UnqueueKeeps(s0, pid);
      RepositionKeeps(s0, pid, prio);
      var _ := UnqueueProcess(pid);
      ghost var s1 := Snap();
      RepositionProcess(pid, prio);
      assert Snap() == Reposition(s1, pid, prio);
      r := ReleaseProcessor();
    }

    /**
     * pq_pop_PCB_ready, then pq_pop_PCB_blocked if the ready queue did not
     * hold pid, both at pid's own priority; an interrupt process is on
     * neither queue and is not looked up.
     */
    method UnqueueProcess(pid: int) returns (found: bool)
      requires Parts() && Sized(Snap()) && IsPid(pid)
      modifies ready, ready.front, ready.back, ready.next, blocked, blocked.front, blocked.back, blocked.next
      ensures Parts()
      ensures (found, Snap()) == Unqueue(old(Snap()), pid)
    {
      var p := NULL;
      if priority[pid] <= HIDDEN {
        p := ready.PopPcb(pid, priority[pid]);
        if p == NULL {
          p := blocked.PopPcb(pid, priority[pid]);
        }
      }
      found := p != NULL;
    }

    /** The rest of k_set_process_priority before the yield: the new priority, and the push its state calls for. */
    method RepositionProcess(pid: int, prio: int)
      requires Parts() && Sized(Snap()) && IsPid(pid) && HIGH <= prio <= LOWEST
      requires ready.loc[pid] == NULL && blocked.loc[pid] == NULL
      modifies this`priority, ready, ready.front, ready.back, ready.next, blocked, blocked.front, blocked.back, blocked.next
      ensures Parts()
      ensures Snap() == Reposition(old(Snap()), pid, prio)
    {
      priority := priority[pid := prio];
      if state[pid] == New || state[pid] == Ready {
        ready.Push(pid, prio);
      } else if state[pid] == BlockedMemory {
        blocked.Push(pid, prio);
      }
    }

    /** k_get_process_priority, as GetPriority states it. */
    method GetProcessPriority(pid: int) returns (r: int)
      requires Valid()
      ensures r == GetPriority(Snap(), pid)
    {
      if pid < 0 || pid >= NUM_PROCS {
        return RTX_ERR;
      }
      return priority[pid];
    }

    /* -------------------------------------------------------------- */
    /* Interrupts                                                     */
    /* -------------------------------------------------------------- */

    /** The timer interrupt handler marks the timer i-process pending; nothing else changes. */
    method SetTimerPending()
      requires Valid()
      modifies this`timerPending
      ensures Valid() && timerPending
      ensures Snap() == old(Snap()).(timerPending := true)
    {
      timerPending := true;
    }

    /** The UART interrupt handler marks the UART i-process pending; nothing else changes. */
    method SetUartPending()
      requires Valid()
      modifies this`uartPending
      ensures Valid() && uartPending
      ensures Snap() == old(Snap()).(uartPending := true)
    {
      uartPending := true;
    }

    /* -------------------------------------------------------------- */
    /* The timer i-process                                            */
    /* -------------------------------------------------------------- */

    /** Every delayed message names an expiry and a receiving pid. */
    lemma DelayedAddressed()
      requires Parts()
      ensures Indexed(pool.delayed, pool.expiry[..]) && Addressable(pool.delayed, pool.recvPid[..])
      ensures pool.delayedFront == Head(pool.delayed) && (pool.delayed != [] ==> IsBlock(pool.delayed[0]))
      ensures |pool.mail| == NUM_PROCS
    {
      DelayedBlocks(pool.link[..], pool.expiry[..], pool.head, pool.free, pool.boxFront, pool.boxBack, pool.mail,
                    pool.delayedFront, pool.delayed, pool.owner);
      forall i | 0 <= i < |pool.delayed|
        ensures IsPid(pool.recvPid[pool.delayed[i]])
      {
        assert pool.owner[pool.delayed[i]] == Delayed;
      }
    }

    /**
     * One pass of timer_i_process's loop, corrected: the message at the
     * front of the delayed queue leaves it (remove_message_delayed) and is
     * sent to its receiver (k_send_message), which from an interrupt
     * process delivers without a yield.
     */
    method ExpireFront() returns (m: int, to: int)
      requires Valid() && current == PID_TIMER_IPROC && pool.delayed != []
      modifies this`current, this`state, this`sp, this`msp, this`timerPending, this`uartPending
      modifies ready, ready.front, ready.back, ready.next, pool, pool.link
      ensures Valid() && current == PID_TIMER_IPROC
      ensures m == old(pool.delayed[0]) && to == old(pool.recvPid[m]) && IsPid(to)
      ensures pool.delayed == old(pool.delayed[1..])
      ensures pool.mail == old(pool.mail)[to := old(pool.mail)[to] + [m]]
      ensures Snap() == Deliver(old(Snap()), to)
    {
      m := Withdraw();
      to := pool.recvPid[m];
      InterruptSend(Snap(), to);
      var _ := SendMessage(to, m);
    }

    /** remove_message_delayed on the front of the delayed queue: the message is held again, and the scheduling state is untouched. */
    method Withdraw() returns (m: int)
      requires Valid() && pool.delayed != []
      modifies pool, pool.link
      ensures Valid() && Snap() == old(Snap())
      ensures m == old(pool.delayed[0]) && IsBlock(m) && pool.owner[m] == Held && IsPid(pool.recvPid[m])
      ensures pool.delayed == old(pool.delayed[1..]) && pool.mail == old(pool.mail)
    {
      DelayedAddressed();
      ghost var s0 := Snap();
      m := pool.delayedFront;
      pool.RemoveDelayed(m);
      assert Snap() == s0;
    }

    /**
     * timer_i_process, one tick, with the loop corrected to re-read the
     * front of the delayed queue: g_timer advances, every message whose
     * expiry has come is sent in expiry order and the rest stay queued, as
     * Tick states it; then the i-process yields.
     */
    method TimerTick()
      requires Valid() && current == PID_TIMER_IPROC
      modifies this`timer, this`current, this`state, this`sp, this`msp, this`timerPending, this`uartPending
      modifies ready, ready.front, ready.back, ready.next, pool, pool.link
      ensures Valid()
      ensures timer == old(timer) + 1
      ensures Indexed(old(pool.delayed), old(pool.expiry[..])) && Addressable(old(pool.delayed), old(pool.recvPid[..]))
      ensures Wakeable(old(Snap()))
      ensures var k := Due(old(pool.delayed), old(pool.expiry[..]), old(timer) + 1);
        && pool.delayed == old(pool.delayed)[k..]
        && pool.mail == Post(old(pool.mail), old(pool.delayed), k, old(pool.recvPid[..]))
        && Snap() == Release(DeliverAll(old(Snap()), old(pool.delayed), k, old(pool.recvPid[..]))).1
    {
      // g_timer++; nothing the handler calls reads g_timer, so the new value is stored at the end
      var now := timer + 1;
      ExpireAll(now);
      SetTimer(now);
    }

    /** The body of timer_i_process at tick now: the due messages are sent, then the i-process yields. */
    method ExpireAll(now: int)
      requires Valid() && current == PID_TIMER_IPROC
      modifies this`current, this`state, this`sp, this`msp, this`timerPending, this`uartPending
      modifies ready, ready.front, ready.back, ready.next, pool, pool.link
      ensures Valid()
      ensures Indexed(old(pool.delayed), old(pool.expiry[..])) && Addressable(old(pool.delayed), old(pool.recvPid[..]))
      ensures Wakeable(old(Snap()))
      ensures var k := Due(old(pool.delayed), old(pool.expiry[..]), now);
        && pool.delayed == old(pool.delayed)[k..]
        && pool.mail == Post(old(pool.mail), old(pool.delayed), k, old(pool.recvPid[..]))
        && Snap() == Release(DeliverAll(old(Snap()), old(pool.delayed), k, old(pool.recvPid[..]))).1
    {
      ghost var s0, d0, m0 := Snap(), pool.delayed, pool.mail;
      ghost var ex, rv := pool.expiry[..], pool.recvPid[..];
      QueuesCoherent();
      DelayedAddressed();
      DeliverAllKeeps(s0, d0, 0, rv);
      ghost var k := DrainExpired(now, s0, d0, m0, ex, rv);
      DeliverAllKeeps(s0, d0, k, rv);
      YieldTimer();
    }

    /** Stores the tick count; nothing else changes. */
    method SetTimer(now: int)
      requires Valid()
      modifies this`timer
      ensures Valid() && Snap() == old(Snap()) && timer == now
    {
      timer := now;
    }

    /** The k_release_processor that ends timer_i_process: the scheduling state is released and the pool is left alone. */
    method YieldTimer()
      requires Valid()
      modifies this`current, this`state, this`sp, this`msp, this`timerPending, this`uartPending
      modifies ready, ready.front, ready.back, ready.next
      ensures Valid() && Snap() == Release(old(Snap())).1
      ensures pool.delayed == old(pool.delayed) && pool.mail == old(pool.mail)
    {
      QueuesCoherent();
      ReleaseKeeps(Snap());
      var _ := ReleaseProcessor();
    }

    /** The loop of timer_i_process, corrected: it sends the due messages, front first, from the interrupt process. */
    method DrainExpired(now: int, ghost s0: Sched, ghost d0: seq<int>, ghost m0: seq<seq<int>>, ghost ex: seq<int>, ghost rv: seq<int>)
      returns (ghost k: nat)
      requires Valid() && current == PID_TIMER_IPROC
      requires s0 == Snap() && d0 == pool.delayed && m0 == pool.mail && ex == pool.expiry[..] && rv == pool.recvPid[..]
      requires Indexed(d0, ex) && Addressable(d0, rv) && |m0| == NUM_PROCS && Sized(s0) && Wakeable(s0)
      modifies this`current, this`state, this`sp, this`msp, this`timerPending, this`uartPending
      modifies ready, ready.front, ready.back, ready.next, pool, pool.link
      ensures Valid() && current == PID_TIMER_IPROC
      ensures k == Due(d0, ex, now)
      ensures pool.delayed == d0[k..]
      ensures pool.mail == Post(m0, d0, k, rv)
      ensures Snap() == DeliverAll(s0, d0, k, rv)
    {
      DelayedAddressed();
      k := Due(d0, ex, now);
      ghost var i := 0;
      var m := pool.delayedFront;
      while m != NULL && Expired(pool.expiry[m], now)
        invariant Valid() && current == PID_TIMER_IPROC
        invariant pool.expiry[..] == ex && pool.recvPid[..] == rv
        invariant 0 <= i <= k && pool.delayed == d0[i..]
        invariant m == Head(pool.delayed) && (pool.delayed != [] ==> IsBlock(m))
        invariant pool.mail == Post(m0, d0, i, rv)
        invariant Snap() == DeliverAll(s0, d0, i, rv)
        decreases |pool.delayed|
      {
        assert i < k by {
          assert m == d0[i];
        }
        ExpireStep(s0, d0, m0, ex, rv, i);
        i := i + 1;
        m := pool.delayedFront;
      }
      assert i == |d0| || !Expired(ex[d0[i]], now) by {
        if m != NULL {
          assert m == d0[i] && ex[m] == pool.expiry[m];
        } else {
          assert pool.delayed == [];
        }
      }
      DueAt(d0, ex, now, i);
    }

    /** One turn of the loop: the i-th due message is sent, as DeliverAll and Post count it. */
    method ExpireStep(ghost s0: Sched, ghost d0: seq<int>, ghost m0: seq<seq<int>>, ghost ex: seq<int>, ghost rv: seq<int>, ghost i: nat)
      requires Valid() && current == PID_TIMER_IPROC
      requires pool.expiry[..] == ex && pool.recvPid[..] == rv
      requires Indexed(d0, ex) && Addressable(d0, rv) && |m0| == NUM_PROCS && Sized(s0) && Wakeable(s0)
      requires i < |d0| && pool.delayed == d0[i..]
      requires pool.mail == Post(m0, d0, i, rv) && Snap() == DeliverAll(s0, d0, i, rv)
      modifies this`current, this`state, this`sp, this`msp, this`timerPending, this`uartPending
      modifies ready, ready.front, ready.back, ready.next, pool, pool.link
      ensures Valid() && current == PID_TIMER_IPROC
      ensures pool.expiry[..] == ex && pool.recvPid[..] == rv
      ensures pool.delayed == d0[i + 1..] && pool.delayedFront == Head(pool.delayed)
      ensures pool.delayed != [] ==> IsBlock(pool.delayedFront)
      ensures pool.mail == Post(m0, d0, i + 1, rv)
      ensures Snap() == DeliverAll(s0, d0, i + 1, rv)
    {
      assert d0[i..][1..] == d0[i + 1..];
      var sent, to := ExpireFront();
      assert sent == d0[i] && to == rv[sent];
      DelayedAddressed();
    }
}
}

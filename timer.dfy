/**
 * The timer i-process of src/k_i_proc.c as functions of the delayed
 * queue: which messages a tick finds expired, where they go and which
 * receivers they wake. The Kernel class's TimerTick is specified by these
 * functions; the as-written tick, which loses the rest of the queue, is
 * modelled beside the corrected one.
 */
module Timer {
  import opened Rtx
  import opened Chains
  import opened Scheduling
  import opened Primitives
  import Memory

  /** Every entry of d names an expiry in ex. */
  predicate Indexed(d: seq<int>, ex: seq<int>) {
    forall i :: 0 <= i < |d| ==> 0 <= d[i] < |ex|
  }

  /**
   * m_expiry, an int, as the tick compares it with the U32 g_timer: the
   * usual arithmetic conversions make it unsigned, so a negative expiry
   * reads as 2^32 more.
   */
  function AsUnsigned(e: int): int {
    if e < 0 then e + 0x1_0000_0000 else e
  }

  /** A message has expired at tick now when its expiry, read as unsigned, is at most now. */
  predicate Expired(e: int, now: int) {
    AsUnsigned(e) <= now
  }

  /**
   * How many messages at the front of the delayed queue d have expired at
   * tick now: the longest prefix whose expiries have all expired.
   */
  function Due(d: seq<int>, ex: seq<int>, now: int): (k: nat)
    requires Indexed(d, ex)
    ensures k <= |d|
    ensures forall i :: 0 <= i < k ==> Expired(ex[d[i]], now)
    ensures k < |d| ==> !Expired(ex[d[k]], now)
  {
    if d == [] || !Expired(ex[d[0]], now) then 0 else 1 + Due(d[1..], ex, now)
  }

  /** The due prefix ends at the first message that has not expired. */
  lemma DueAt(d: seq<int>, ex: seq<int>, now: int, i: nat)
    requires Indexed(d, ex) && i <= Due(d, ex, now)
    requires i == |d| || !Expired(ex[d[i]], now)
    ensures i == Due(d, ex, now)
  {
  }

  /**
   * In a queue sorted by expiry whose expiries are not negative, every
   * message behind the due prefix has not expired yet.
   */
  lemma DueSplits(d: seq<int>, ex: seq<int>, now: int)
    requires Indexed(d, ex) && Memory.SortedBy(d, ex)
    requires forall i :: 0 <= i < |d| ==> ex[d[i]] >= 0
    ensures forall i :: Due(d, ex, now) <= i < |d| ==> !Expired(ex[d[i]], now)
  {
    var k := Due(d, ex, now);
    forall i | k <= i < |d|
      ensures !Expired(ex[d[i]], now)
    {
      assert ex[d[k]] <= ex[d[i]];
    }
  }

  /**
   * A negative expiry (g_timer + delay below zero) sorts to the front of
   * the queue by the signed comparisons of insert_message_delayed, but the
   * unsigned comparison of the tick never finds it expired while g_timer is
   * below 2^31: nothing is sent, whatever waits behind it.
   */
  lemma NegativeExpiryHoldsBack(d: seq<int>, ex: seq<int>, now: int)
    requires Indexed(d, ex) && d != [] && -0x8000_0000 <= ex[d[0]] < 0 && now < 0x8000_0000
    ensures Due(d, ex, now) == 0
  {
  }

  /** Block 1, due at tick 3, is still held at tick 10 behind block 0, whose expiry is -5. */
  lemma NegativeExpiryExample()
    ensures Memory.SortedBy([0, 1], [-5, 3])
    ensures Expired(3, 10) && Due([0, 1], [-5, 3], 10) == 0
  {
    NegativeExpiryHoldsBack([0, 1], [-5, 3], 10);
  }

  /** The messages of bs addressed (m_recv_pid) to p, in order. */
  function Addressed(bs: seq<int>, recv: seq<int>, p: int): (r: seq<int>)
    requires Indexed(bs, recv)
    ensures forall i :: 0 <= i < |r| ==> r[i] in bs && recv[r[i]] == p
    ensures forall b :: b in bs && recv[b] == p ==> b in r
  {
    if bs == [] then []
    else
      var r := Addressed(bs[..|bs| - 1], recv, p);
      var b := bs[|bs| - 1];
      assert forall x :: x in bs ==> x in bs[..|bs| - 1] || x == b;
      if recv[b] == p then r + [b] else r
  }

  /** Every receiver named by bs is a pid. */
  predicate Addressable(bs: seq<int>, recv: seq<int>) {
    Indexed(bs, recv) && forall i :: 0 <= i < |bs| ==> IsPid(recv[bs[i]])
  }

  /** The mailboxes after k_send_message has put each of the first n messages of bs, in order, at the back of its receiver's mailbox. */
  function Post(mail: seq<seq<int>>, bs: seq<int>, n: nat, recv: seq<int>): (r: seq<seq<int>>)
    requires |mail| == NUM_PROCS && Addressable(bs, recv) && n <= |bs|
    ensures |r| == NUM_PROCS
  {
    if n == 0 then mail
    else
      var m := Post(mail, bs, n - 1, recv);
      var b := bs[n - 1];
      m[recv[b] := m[recv[b]] + [b]]
  }

  /** Each mailbox gains exactly the messages addressed to it, in the order they were posted. */
  lemma {:induction false} PostFor(mail: seq<seq<int>>, bs: seq<int>, n: nat, recv: seq<int>, p: int)
    requires |mail| == NUM_PROCS && Addressable(bs, recv) && n <= |bs| && 0 <= p < NUM_PROCS
    ensures Post(mail, bs, n, recv)[p] == mail[p] + Addressed(bs[..n], recv, p)
  {
    if n > 0 {
      PostFor(mail, bs, n - 1, recv, p);
      assert bs[..n][..n - 1] == bs[..n - 1];
    }
  }

  /** No receiver an interrupt process could block on: an interrupt process is never BLOCKED_MSG. */
  ghost predicate Wakeable(s: Sched)
    requires Sized(s)
  {
    forall p :: 0 <= p < NUM_PROCS && s.state[p] == BlockedMsg ==> s.priority[p] != INTERRUPT
  }

  /**
   * The scheduling state after the first n messages of bs have been
   * delivered in order from an interrupt process: each receiver blocked on
   * a message is woken, and nothing preempts.
   */
  ghost function DeliverAll(s: Sched, bs: seq<int>, n: nat, recv: seq<int>): (r: Sched)
    requires Sized(s) && Wakeable(s) && Addressable(bs, recv) && n <= |bs|
    ensures Sized(r) && Wakeable(r)
    ensures r.priority == s.priority && r.current == s.current && r.used == s.used
  {
    if n == 0 then s
    else Deliver(DeliverAll(s, bs, n - 1, recv), recv[bs[n - 1]])
  }

  /** One delivery keeps the queues coherent and the scheduling invariant. */
  lemma DeliverKeeps(s: Sched, pid: int)
    requires Sized(s) && Coherent(s) && Steady(s) && IsPid(pid)
    ensures Wakeable(s) && Coherent(Deliver(s, pid)) && Steady(Deliver(s, pid))
  {
    if s.state[pid] == BlockedMsg {
      assert s.rl[pid] == NULL && s.priority[pid] <= HIDDEN;
      WakeCoherent(s, pid);
      WakeSteady(s, pid);
    }
  }

  /** Delivering the due messages keeps the queues coherent and the scheduling invariant. */
  lemma {:induction false} DeliverAllKeeps(s: Sched, bs: seq<int>, n: nat, recv: seq<int>)
    requires Sized(s) && Coherent(s) && Steady(s) && Addressable(bs, recv) && n <= |bs|
    ensures Wakeable(s)
    ensures Coherent(DeliverAll(s, bs, n, recv)) && Steady(DeliverAll(s, bs, n, recv))
  {
    if n == 0 {
      DeliverKeeps(s, PID_NULL);
    } else {
      DeliverAllKeeps(s, bs, n - 1, recv);
      DeliverKeeps(DeliverAll(s, bs, n - 1, recv), recv[bs[n - 1]]);
    }
  }

  /** Delivering the due messages wakes exactly the receivers blocked on a message that some of them are addressed to. */
  lemma {:induction false} DeliverAllWakes(s: Sched, bs: seq<int>, n: nat, recv: seq<int>)
    requires Sized(s) && Wakeable(s) && Addressable(bs, recv) && n <= |bs|
    ensures forall p :: 0 <= p < NUM_PROCS ==>
      DeliverAll(s, bs, n, recv).state[p] ==
        if s.state[p] == BlockedMsg && Addressed(bs[..n], recv, p) != [] then Ready else s.state[p]
  {
    if n > 0 {
      DeliverAllWakes(s, bs, n - 1, recv);
      assert bs[..n][..n - 1] == bs[..n - 1];
    }
  }

  /** Sending from the timer i-process is a plain delivery: k_send_message does not yield from an interrupt process. */
  lemma InterruptSend(s: Sched, pid: int)
    requires Sized(s) && Steady(s) && s.current == PID_TIMER_IPROC && IsPid(pid)
    ensures Wakeable(s) && Send(s, pid) == (RTX_OK, Deliver(s, pid))
  {
  }

  /* ---------------------------------------------------------------- */
  /* The tick as written                                              */
  /* ---------------------------------------------------------------- */

  /**
   * remove_message_delayed as written: a message found at the front of
   * the delayed queue sets timeout_queue_front to NULL, dropping every
   * message behind it; one found further back is unlinked.
   */
  function RemoveDelayedAsWritten(d: seq<int>, b: int): seq<int> {
    if d != [] && d[0] == b then [] else Remove(d, b)
  }

  /**
   * Removing the front message as written loses the message behind it,
   * which Remove (the corrected unlink of Memory.Pool.RemoveDelayed) keeps.
   */
  lemma RemoveDelayedAsWrittenLoses(d: seq<int>)
    requires |d| >= 2 && Distinct(d)
    ensures d[1] !in RemoveDelayedAsWritten(d, d[0])
    ensures Remove(d, d[0]) == d[1..] && d[1] in Remove(d, d[0])
  {
  }

  /**
   * One tick of timer_i_process as written on the delayed queue d at tick
   * now: (messages sent, queue left). An expired front message is removed
   * (emptying the queue, above) and sent; k_send_message's enqueue_message
   * then clears its mp_next, which the loop follows, so the loop ends.
   */
  function TickAsWritten(d: seq<int>, ex: seq<int>, now: int): (r: (seq<int>, seq<int>))
    requires Indexed(d, ex)
    ensures |r.0| <= 1 && r.0 <= d
    ensures r.0 != [] ==> r.1 == []
  {
    if d != [] && Expired(ex[d[0]], now) then ([d[0]], RemoveDelayedAsWritten(d, d[0])) else ([], d)
  }

  /** One tick with the loop corrected: every expired message is sent, and the others stay queued in order. */
  function Tick(d: seq<int>, ex: seq<int>, now: int): (r: (seq<int>, seq<int>))
    requires Indexed(d, ex)
    ensures r.0 + r.1 == d && Indexed(r.0, ex) && Indexed(r.1, ex)
    ensures forall i :: 0 <= i < |r.0| ==> Expired(ex[r.0[i]], now)
    ensures r.1 != [] ==> !Expired(ex[r.1[0]], now)
  {
    var k := Due(d, ex, now);
    (d[..k], d[k..])
  }

  /**
   * Three messages for blocks 1, 2 and 0 expiring at ticks 10, 20 and 30,
   * seen at tick 25: the corrected tick sends 1 and 2 and keeps 0; as
   * written the tick sends 1 only and the queue is left empty, so 2 is
   * never delivered and 0 is lost with it.
   */
  lemma TickAsWrittenLosesMessages()
    ensures Tick([1, 2, 0], [30, 10, 20], 25) == ([1, 2], [0])
    ensures TickAsWritten([1, 2, 0], [30, 10, 20], 25) == ([1], [])
  {
    var d, ex := [1, 2, 0], [30, 10, 20];
    assert d[1..] == [2, 0] && d[1..][1..] == [0];
    assert Due([0], ex, 25) == 0;
    assert Due([2, 0], ex, 25) == 1;
    assert Due(d, ex, 25) == 2;
    assert d[..2] == [1, 2] && d[2..] == [0];
  }
}

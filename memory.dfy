/**
 * The fixed-block memory pool of src/k_memory.c and the message queues
 * that are threaded through it. A memory block is an index 0..29; its first
 * word is a link that serves, depending on where the block is, as the
 * free-list link (k_memory.c), as MSG_BUF.mp_next in a mailbox
 * (enqueue_message, dequeue_message in k_process.c) or in the delayed
 * delivery queue (insert_message_delayed, remove_message_delayed in
 * k_sys_proc.c). The header words m_send_pid, m_recv_pid and m_expiry sit
 * beside it. The mailbox pointers (PCB.mp_msg_queue_front and _back) and
 * timeout_queue_front are kept with the pool because they point into it.
 */
module Memory {
  import opened Rtx
  import opened Chains

  /** Where a block is: on the free list, in the mailbox of a pid, in the delayed queue, or held by a process. */
  datatype Owner = Free | Mailbox(pid: int) | Delayed | Held

  /* ---------------------------------------------------------------- */
  /* The shape of the pool, on the values of its words                 */
  /* ---------------------------------------------------------------- */

  /** Every block of the list `s` is tagged t. */
  ghost predicate Tagged(s: seq<int>, owner: seq<Owner>, t: Owner) {
    forall i :: 0 <= i < |s| && 0 <= s[i] < |owner| ==> owner[s[i]] == t
  }

  ghost predicate FreeOk(link: seq<int>, head: int, free: seq<int>) {
    Linked(link, free) && head == Head(free)
  }

  /** One mailbox: the list of its messages with its front and back pointers. */
  ghost predicate BoxOk(link: seq<int>, front: int, back: int, s: seq<int>) {
    Linked(link, s) && front == Head(s) && back == Last(s)
  }

  ghost predicate MailOk(link: seq<int>, bf: seq<int>, bb: seq<int>, mail: seq<seq<int>>) {
    && |bf| == NUM_PROCS && |bb| == NUM_PROCS && |mail| == NUM_PROCS
    && forall p :: 0 <= p < NUM_PROCS ==> BoxOk(link, bf[p], bb[p], mail[p])
  }

  /** Entries of `s` are in non-decreasing order of their expiry. */
  ghost predicate SortedBy(s: seq<int>, ex: seq<int>) {
    forall i, j :: 0 <= i < j < |s| && 0 <= s[i] < |ex| && 0 <= s[j] < |ex| ==> ex[s[i]] <= ex[s[j]]
  }

  ghost predicate DelayedOk(link: seq<int>, df: int, delayed: seq<int>, ex: seq<int>) {
    Linked(link, delayed) && df == Head(delayed) && SortedBy(delayed, ex)
  }

  /** Each list's blocks carry that list's tag, so no block is in two lists, and a held block is in none. */
  ghost predicate Owned(free: seq<int>, mail: seq<seq<int>>, delayed: seq<int>, owner: seq<Owner>) {
    && Tagged(free, owner, Free)
    && (forall p :: 0 <= p < |mail| ==> Tagged(mail[p], owner, Mailbox(p)))
    && Tagged(delayed, owner, Delayed)
  }

  ghost predicate PoolShape(link: seq<int>, ex: seq<int>, head: int, free: seq<int>,
                            bf: seq<int>, bb: seq<int>, mail: seq<seq<int>>,
                            df: int, delayed: seq<int>, owner: seq<Owner>) {
    && |link| == NUM_MEMORY_BLOCKS && |ex| == NUM_MEMORY_BLOCKS && |owner| == NUM_MEMORY_BLOCKS
    && FreeOk(link, head, free) && MailOk(link, bf, bb, mail) && DelayedOk(link, df, delayed, ex)
    && Owned(free, mail, delayed, owner)
  }

  /** The link words of the blocks tagged t are the same in `link` and `link'`. */
  ghost predicate KeepsTagged(link: seq<int>, link': seq<int>, owner: seq<Owner>, t: Owner) {
    forall x :: 0 <= x < |owner| && 0 <= x < |link| && 0 <= x < |link'| && owner[x] == t ==> link'[x] == link[x]
  }

  /* Tags */

  /** A block tagged otherwise than t is not in a list tagged t. */
  lemma TaggedExcludes(s: seq<int>, owner: seq<Owner>, t: Owner, b: int)
    requires Tagged(s, owner, t) && 0 <= b < |owner| && owner[b] != t
    ensures b !in s
  {
    forall i | 0 <= i < |s|
      ensures s[i] != b
    {
    }
  }

  lemma TaggedSlice(s: seq<int>, owner: seq<Owner>, t: Owner, i: int, j: int)
    requires Tagged(s, owner, t) && 0 <= i <= j <= |s|
    ensures Tagged(s[i..j], owner, t)
  {
    forall k | 0 <= k < j - i && 0 <= s[i..j][k] < |owner|
      ensures owner[s[i..j][k]] == t
    {
      assert s[i..j][k] == s[i + k];
    }
  }

  lemma TaggedJoin(s1: seq<int>, s2: seq<int>, owner: seq<Owner>, t: Owner)
    requires Tagged(s1, owner, t) && Tagged(s2, owner, t)
    ensures Tagged(s1 + s2, owner, t)
  {
    forall k | 0 <= k < |s1 + s2| && 0 <= (s1 + s2)[k] < |owner|
      ensures owner[(s1 + s2)[k]] == t
    {
      if k >= |s1| {
        assert (s1 + s2)[k] == s2[k - |s1|];
      }
    }
  }

  /** Retagging a block outside `s` keeps the tags of `s`. */
  lemma TaggedRetag(s: seq<int>, owner: seq<Owner>, t: Owner, b: int, v: Owner)
    requires Tagged(s, owner, t) && 0 <= b < |owner| && b !in s
    ensures Tagged(s, owner[b := v], t)
  {
  }

  /** A block in none of the lists can be retagged without disturbing them. */
  lemma OwnedRetag(free: seq<int>, mail: seq<seq<int>>, delayed: seq<int>, owner: seq<Owner>, b: int, v: Owner)
    requires Owned(free, mail, delayed, owner) && 0 <= b < |owner|
    requires b !in free && b !in delayed && forall p :: 0 <= p < |mail| ==> b !in mail[p]
    ensures Owned(free, mail, delayed, owner[b := v])
  {
    TaggedRetag(free, owner, Free, b, v);
    TaggedRetag(delayed, owner, Delayed, b, v);
    forall p | 0 <= p < |mail|
      ensures Tagged(mail[p], owner[b := v], Mailbox(p))
    {
      TaggedRetag(mail[p], owner, Mailbox(p), b, v);
    }
  }

  /** Replacing mailbox p by a list tagged Mailbox(p). */
  lemma OwnedSetBox(free: seq<int>, mail: seq<seq<int>>, delayed: seq<int>, owner: seq<Owner>, p: int, s: seq<int>)
    requires Owned(free, mail, delayed, owner) && 0 <= p < |mail| && Tagged(s, owner, Mailbox(p))
    ensures Owned(free, mail[p := s], delayed, owner)
  {
  }

  /** A block tagged otherwise than every list is in none of them. */
  lemma NotInLists(free: seq<int>, mail: seq<seq<int>>, delayed: seq<int>, owner: seq<Owner>, b: int)
    requires Owned(free, mail, delayed, owner) && 0 <= b < |owner|
    ensures owner[b] != Free ==> b !in free
    ensures owner[b] != Delayed ==> b !in delayed
    ensures forall p :: 0 <= p < |mail| && owner[b] != Mailbox(p) ==> b !in mail[p]
  {
    if owner[b] != Free {
      TaggedExcludes(free, owner, Free, b);
    }
    if owner[b] != Delayed {
      TaggedExcludes(delayed, owner, Delayed, b);
    }
    forall p | 0 <= p < |mail| && owner[b] != Mailbox(p)
      ensures b !in mail[p]
    {
      TaggedExcludes(mail[p], owner, Mailbox(p), b);
    }
  }

  /* Link words */

  /** A list tagged t survives a change of link words that keeps those of the blocks tagged t. */
  lemma TaggedKeepsLinks(s: seq<int>, owner: seq<Owner>, t: Owner, link: seq<int>, link': seq<int>)
    requires Linked(link, s) && Tagged(s, owner, t)
    requires |owner| == |link| == |link'| && KeepsTagged(link, link', owner, t)
    ensures Linked(link', s)
  {
    assert forall i :: 0 <= i < |s| ==> link'[s[i]] == link[s[i]];
  }

  lemma FreeKeeps(link: seq<int>, link': seq<int>, head: int, free: seq<int>, owner: seq<Owner>)
    requires FreeOk(link, head, free) && Tagged(free, owner, Free)
    requires |owner| == |link| == |link'| && KeepsTagged(link, link', owner, Free)
    ensures FreeOk(link', head, free)
  {
    TaggedKeepsLinks(free, owner, Free, link, link');
  }

  lemma DelayedKeeps(link: seq<int>, link': seq<int>, df: int, delayed: seq<int>, ex: seq<int>, owner: seq<Owner>)
    requires DelayedOk(link, df, delayed, ex) && Tagged(delayed, owner, Delayed)
    requires |owner| == |link| == |link'| && KeepsTagged(link, link', owner, Delayed)
    ensures DelayedOk(link', df, delayed, ex)
  {
    TaggedKeepsLinks(delayed, owner, Delayed, link, link');
  }

  /** Every mailbox but p (all of them when p is not a pid) survives a change that keeps their link words. */
  lemma MailKeeps(link: seq<int>, link': seq<int>, bf: seq<int>, bb: seq<int>, mail: seq<seq<int>>,
                  owner: seq<Owner>, p: int)
    requires MailOk(link, bf, bb, mail) && forall q :: 0 <= q < |mail| ==> Tagged(mail[q], owner, Mailbox(q))
    requires |owner| == |link| == |link'|
    requires forall q :: 0 <= q < NUM_PROCS && q != p ==> KeepsTagged(link, link', owner, Mailbox(q))
    ensures forall q :: 0 <= q < NUM_PROCS && q != p ==> BoxOk(link', bf[q], bb[q], mail[q])
  {
    forall q | 0 <= q < NUM_PROCS && q != p
      ensures BoxOk(link', bf[q], bb[q], mail[q])
    {
      TaggedKeepsLinks(mail[q], owner, Mailbox(q), link, link');
    }
  }

  /** A write to the link word of block x keeps the link words of every tag but x's. */
  lemma WriteKeeps(link: seq<int>, owner: seq<Owner>, x: int, v: int, t: Owner)
    requires |owner| == |link| && 0 <= x < |link| && owner[x] != t
    ensures KeepsTagged(link, link[x := v], owner, t)
  {
  }

  lemma KeepsChain(l1: seq<int>, l2: seq<int>, l3: seq<int>, owner: seq<Owner>, t: Owner)
    requires |l1| == |l2| == |l3| == |owner|
    requires KeepsTagged(l1, l2, owner, t) && KeepsTagged(l2, l3, owner, t)
    ensures KeepsTagged(l1, l3, owner, t)
  {
  }

  /* ---------------------------------------------------------------- */
  /* The free list                                                     */
  /* ---------------------------------------------------------------- */

  /** The free list memory_init builds: the last block built first, down to block 0. */
  function InitialFree(): (s: seq<int>)
    ensures |s| == NUM_MEMORY_BLOCKS
    ensures forall i :: 0 <= i < |s| ==> s[i] == NUM_MEMORY_BLOCKS - 1 - i
  {
    seq(NUM_MEMORY_BLOCKS, i => NUM_MEMORY_BLOCKS - 1 - i)
  }

  /**
   * The byte address of block b when the PCBs end at pEnd: memory_init
   * skips 4 words of padding and steps MEMORY_BLOCK_SIZE bytes per block.
   */
  function BlockAddress(pEnd: int, b: int): int {
    pEnd + 16 + MEMORY_BLOCK_SIZE * b
  }

  /** Distinct blocks occupy disjoint MEMORY_BLOCK_SIZE-byte ranges, block 0 lowest. */
  lemma BlocksDisjoint(pEnd: int, b1: int, b2: int)
    requires 0 <= b1 < b2 < NUM_MEMORY_BLOCKS
    ensures BlockAddress(pEnd, b1) + MEMORY_BLOCK_SIZE <= BlockAddress(pEnd, b2)
    ensures BlockAddress(pEnd, b2) + MEMORY_BLOCK_SIZE <= BlockAddress(pEnd, NUM_MEMORY_BLOCKS)
  {
  }

  /** With every block's link naming the block built before it, the list from the last block is the whole pool. */
  lemma InitialFreeLinked(link: seq<int>)
    requires |link| == NUM_MEMORY_BLOCKS
    requires forall j :: 0 <= j < NUM_MEMORY_BLOCKS ==> link[j] == j - 1
    ensures Linked(link, InitialFree())
    ensures Distinct(InitialFree())
  {
    var s := InitialFree();
    assert forall i :: 0 <= i < |s| - 1 ==> link[s[i]] == s[i + 1];
    assert link[s[|s| - 1]] == -1;
    LinkedDistinct(link, s);
  }

  /** The pool memory_init leaves: every block free, every mailbox and the delayed queue empty. */
  lemma InitialShape(link: seq<int>, ex: seq<int>, head: int, free: seq<int>, bf: seq<int>, bb: seq<int>,
                     mail: seq<seq<int>>, df: int, delayed: seq<int>, owner: seq<Owner>)
    requires |link| == NUM_MEMORY_BLOCKS && |ex| == NUM_MEMORY_BLOCKS
    requires forall j :: 0 <= j < NUM_MEMORY_BLOCKS ==> link[j] == j - 1
    requires head == NUM_MEMORY_BLOCKS - 1 && free == InitialFree()
    requires bf == seq(NUM_PROCS, _ => NULL) && bb == seq(NUM_PROCS, _ => NULL) && mail == seq(NUM_PROCS, _ => [])
    requires df == NULL && delayed == [] && owner == seq(NUM_MEMORY_BLOCKS, _ => Free)
    ensures PoolShape(link, ex, head, free, bf, bb, mail, df, delayed, owner)
  {
    InitialFreeLinked(link);
    assert forall p :: 0 <= p < NUM_PROCS ==> mail[p] == [];
  }

  /** k_request_memory_block's heap step: the head block leaves the free list and is held. */
  lemma TakeOk(link: seq<int>, ex: seq<int>, head: int, free: seq<int>, bf: seq<int>, bb: seq<int>,
               mail: seq<seq<int>>, df: int, delayed: seq<int>, owner: seq<Owner>)
    requires PoolShape(link, ex, head, free, bf, bb, mail, df, delayed, owner)
    requires free != []
    ensures 0 <= head < NUM_MEMORY_BLOCKS && owner[head] == Free
    ensures PoolShape(link, ex, link[head], free[1..], bf, bb, mail, df, delayed, owner[head := Held])
  {
    var b := free[0];
    assert Linked(link, free);
    LinkedTail(link, free);
    LinkedDistinct(link, free);
    DistinctTail(free);
    assert owner[b] == Free;
    NotInLists(free, mail, delayed, owner, b);
    TaggedSlice(free, owner, Free, 1, |free|);
    OwnedRetag(free[1..], mail, delayed, owner, b, Held);
  }

  /** k_release_memory_block's heap step: the held block becomes the head of the free list. */
  lemma GiveOk(link: seq<int>, ex: seq<int>, head: int, free: seq<int>, bf: seq<int>, bb: seq<int>,
               mail: seq<seq<int>>, df: int, delayed: seq<int>, owner: seq<Owner>, b: int)
    requires PoolShape(link, ex, head, free, bf, bb, mail, df, delayed, owner)
    requires 0 <= b < NUM_MEMORY_BLOCKS && owner[b] == Held
    ensures PoolShape(link[b := head], ex, b, [b] + free, bf, bb, mail, df, delayed, owner[b := Free])
  {
    var link' := link[b := head];
    NotInLists(free, mail, delayed, owner, b);
    LinkedPrepend(link, free, b);
    WriteKeeps(link, owner, b, head, Delayed);
    DelayedKeeps(link, link', df, delayed, ex, owner);
    forall q | 0 <= q < NUM_PROCS
      ensures KeepsTagged(link, link', owner, Mailbox(q))
    {
      WriteKeeps(link, owner, b, head, Mailbox(q));
    }
    MailKeeps(link, link', bf, bb, mail, owner, NULL);
    OwnedRetag(free, mail, delayed, owner, b, Free);
    TaggedJoin([b], free, owner[b := Free], Free);
  }

  /* ---------------------------------------------------------------- */
  /* Mailboxes                                                         */
  /* ---------------------------------------------------------------- */

  /** enqueue_message: the held block b joins the back of mailbox p. */
  lemma EnqueueOk(link: seq<int>, ex: seq<int>, head: int, free: seq<int>, bf: seq<int>, bb: seq<int>,
                  mail: seq<seq<int>>, df: int, delayed: seq<int>, owner: seq<Owner>, p: int, b: int)
    requires PoolShape(link, ex, head, free, bf, bb, mail, df, delayed, owner)
    requires 0 <= p < NUM_PROCS && 0 <= b < NUM_MEMORY_BLOCKS && owner[b] == Held
    ensures var l1 := link[b := NULL];
      PoolShape(if bb[p] == NULL then l1 else l1[bb[p] := b], ex, head, free,
                if bb[p] == NULL then bf[p := b] else bf, bb[p := b],
                mail[p := mail[p] + [b]], df, delayed, owner[b := Mailbox(p)])
  {
    var s := mail[p];
    var l1 := link[b := NULL];
    var l2 := if bb[p] == NULL then l1 else l1[bb[p] := b];
    assert BoxOk(link, bf[p], bb[p], s);
    NotInLists(free, mail, delayed, owner, b);
    LinkedFrame(link, b, NULL, s);
    LinkedAppend(l1, s, b);
    if s != [] {
      assert owner[Last(s)] == Mailbox(p);
    }
    forall t | t == Free || t == Delayed || (t.Mailbox? && t.pid != p)
      ensures KeepsTagged(link, l2, owner, t)
    {
      WriteKeeps(link, owner, b, NULL, t);
      if s != [] {
        WriteKeeps(l1, owner, Last(s), b, t);
        KeepsChain(link, l1, l2, owner, t);
      }
    }
    FreeKeeps(link, l2, head, free, owner);
    DelayedKeeps(link, l2, df, delayed, ex, owner);
    MailKeeps(link, l2, bf, bb, mail, owner, p);
    var owner' := owner[b := Mailbox(p)];
    OwnedRetag(free, mail, delayed, owner, b, Mailbox(p));
    TaggedJoin(s, [b], owner', Mailbox(p));
    OwnedSetBox(free, mail, delayed, owner', p, s + [b]);
    assert BoxOk(l2, if bb[p] == NULL then b else bf[p], b, s + [b]);
  }

  /** dequeue_message: the front block of the non-empty mailbox p leaves it and is held. */
  lemma DequeueOk(link: seq<int>, ex: seq<int>, head: int, free: seq<int>, bf: seq<int>, bb: seq<int>,
                  mail: seq<seq<int>>, df: int, delayed: seq<int>, owner: seq<Owner>, p: int)
    requires PoolShape(link, ex, head, free, bf, bb, mail, df, delayed, owner)
    requires 0 <= p < NUM_PROCS && mail[p] != []
    ensures var b := bf[p];
      && b == mail[p][0] && 0 <= b < NUM_MEMORY_BLOCKS && owner[b] == Mailbox(p)
      && (b == bb[p] <==> |mail[p]| == 1)
      && PoolShape(link, ex, head, free,
                   if b == bb[p] then bf[p := NULL] else bf[p := link[b]],
                   if b == bb[p] then bb[p := NULL] else bb,
                   mail[p := mail[p][1..]], df, delayed, owner[b := Held])
  {
    var s := mail[p];
    var b := s[0];
    assert BoxOk(link, bf[p], bb[p], s);
    LinkedTail(link, s);
    LinkedDistinct(link, s);
    DistinctTail(s);
    if |s| > 1 {
      assert Last(s[1..]) == Last(s);
      assert s[|s| - 1] != b;
    }
    assert owner[b] == Mailbox(p);
    NotInLists(free, mail, delayed, owner, b);
    TaggedSlice(s, owner, Mailbox(p), 1, |s|);
    OwnedSetBox(free, mail, delayed, owner, p, s[1..]);
    OwnedRetag(free, mail[p := s[1..]], delayed, owner, b, Held);
    assert BoxOk(link, if b == bb[p] then NULL else link[b], if b == bb[p] then NULL else bb[p], s[1..]);
  }

  /* ---------------------------------------------------------------- */
  /* The delayed queue                                                 */
  /* ---------------------------------------------------------------- */

  /**
   * Where insert_message_delayed puts a message with expiry e: in front of
   * the first entry whose expiry is at least e, or at the end.
   */
  function InsertPos(s: seq<int>, ex: seq<int>, e: int): (k: nat)
    requires forall i :: 0 <= i < |s| ==> 0 <= s[i] < |ex|
    ensures k <= |s|
    ensures forall i :: 0 <= i < k ==> ex[s[i]] < e
    ensures k < |s| ==> ex[s[k]] >= e
  {
    if s == [] || ex[s[0]] >= e then 0 else 1 + InsertPos(s[1..], ex, e)
  }

  /** The insertion point is the one index with only earlier expiries before it and none after. */
  lemma {:induction false} InsertPosIs(s: seq<int>, ex: seq<int>, e: int, k: int)
    requires forall i :: 0 <= i < |s| ==> 0 <= s[i] < |ex|
    requires 0 <= k <= |s|
    requires forall i :: 0 <= i < k ==> ex[s[i]] < e
    requires k < |s| ==> ex[s[k]] >= e
    ensures InsertPos(s, ex, e) == k
  {
    if k > 0 {
      InsertPosIs(s[1..], ex, e, k - 1);
    }
  }

  /** The delayed queue after inserting b with expiry e. */
  function InsertByExpiry(s: seq<int>, ex: seq<int>, b: int, e: int): seq<int>
    requires forall i :: 0 <= i < |s| ==> 0 <= s[i] < |ex|
  {
    var k := InsertPos(s, ex, e);
    s[..k] + [b] + s[k..]
  }

  /** Where b goes depends only on the expiries of the blocks already queued. */
  lemma InsertByExpiryFrame(s: seq<int>, ex: seq<int>, ex': seq<int>, b: int, e: int)
    requires forall i :: 0 <= i < |s| ==> 0 <= s[i] < |ex| && 0 <= s[i] < |ex'| && ex[s[i]] == ex'[s[i]]
    ensures InsertByExpiry(s, ex, b, e) == InsertByExpiry(s, ex', b, e)
  {
    InsertPosIs(s, ex', e, InsertPos(s, ex, e));
  }

  /** The expiry the block being inserted had before does not matter. */
  lemma InsertByExpiryOwn(s: seq<int>, ex: seq<int>, b: int, v: int, e: int)
    requires forall i :: 0 <= i < |s| ==> 0 <= s[i] < |ex| && s[i] != b
    requires 0 <= b < |ex|
    ensures InsertByExpiry(s, ex[b := v], b, e) == InsertByExpiry(s, ex, b, e)
  {
    InsertByExpiryFrame(s, ex[b := v], ex, b, e);
  }

  /** The inserted sequence: the old entries before the insertion point, b, then the rest. */
  lemma InsertByExpiryIndex(s: seq<int>, ex: seq<int>, b: int, e: int)
    requires forall i :: 0 <= i < |s| ==> 0 <= s[i] < |ex|
    ensures var k, t := InsertPos(s, ex, e), InsertByExpiry(s, ex, b, e);
      && |t| == |s| + 1 && t[k] == b
      && (forall i :: 0 <= i < k ==> t[i] == s[i])
      && (forall i :: k < i < |t| ==> t[i] == s[i - 1])
  {
  }

  /** Inserting into a queue sorted by expiry keeps it sorted once b carries expiry e. */
  lemma InsertByExpirySorted(s: seq<int>, ex: seq<int>, b: int, e: int)
    requires forall i :: 0 <= i < |s| ==> 0 <= s[i] < |ex|
    requires SortedBy(s, ex) && 0 <= b < |ex| && b !in s
    ensures SortedBy(InsertByExpiry(s, ex, b, e), ex[b := e])
  {
    var k := InsertPos(s, ex, e);
    var t := InsertByExpiry(s, ex, b, e);
    var ex' := ex[b := e];
    InsertByExpiryIndex(s, ex, b, e);
    forall i | 0 <= i < |s|
      ensures ex'[s[i]] == ex[s[i]]
    {
      assert s[i] != b;
    }
    forall i, j | 0 <= i < j < |t| && 0 <= t[i] < |ex'| && 0 <= t[j] < |ex'|
      ensures ex'[t[i]] <= ex'[t[j]]
    {
      var x := if i < k then ex[s[i]] else if i == k then e else ex[s[i - 1]];
      var y := if j < k then ex[s[j]] else if j == k then e else ex[s[j - 1]];
      assert ex'[t[i]] == x && ex'[t[j]] == y;
      if k < j && k < i {
        assert ex[s[i - 1]] <= ex[s[j - 1]];
      } else if k < j && i == k {
        assert ex[s[k]] <= ex[s[j - 1]];
      }
    }
  }

  /** Inserting adds exactly b to the delayed queue. */
  lemma InsertByExpiryContents(s: seq<int>, ex: seq<int>, b: int, e: int)
    requires forall i :: 0 <= i < |s| ==> 0 <= s[i] < |ex|
    ensures multiset(InsertByExpiry(s, ex, b, e)) == multiset(s) + multiset{b}
  {
    var k := InsertPos(s, ex, e);
    calc {
      multiset(InsertByExpiry(s, ex, b, e));
      multiset(s[..k]) + multiset{b} + multiset(s[k..]);
      { assert s == s[..k] + s[k..]; }
      multiset(s) + multiset{b};
    }
  }

  /**
   * In a sorted queue b lands after every entry expiring earlier and before
   * every entry expiring at the same time or later: a later message with an
   * equal expiry is delivered first.
   */
  lemma InsertByExpiryOrder(s: seq<int>, ex: seq<int>, b: int, e: int)
    requires forall i :: 0 <= i < |s| ==> 0 <= s[i] < |ex|
    requires SortedBy(s, ex)
    ensures forall i :: 0 <= i < |InsertByExpiry(s, ex, b, e)| ==>
      var x := InsertByExpiry(s, ex, b, e)[i];
      x != b ==> (ex[x] >= e <==> i > InsertPos(s, ex, e))
  {
    var k := InsertPos(s, ex, e);
    var t := InsertByExpiry(s, ex, b, e);
    InsertByExpiryIndex(s, ex, b, e);
    forall i | 0 <= i < |t| && t[i] != b
      ensures ex[t[i]] >= e <==> i > k
    {
      if i > k {
        assert t[i] == s[i - 1];
        assert ex[s[i - 1]] >= ex[s[k]];
      } else {
        assert t[i] == s[i];
      }
    }
  }

  /** Tagging a held block Delayed as it joins the delayed queue at index k keeps every list's tags. */
  lemma InsertOwned(free: seq<int>, mail: seq<seq<int>>, d: seq<int>, owner: seq<Owner>, b: int, k: int)
    requires Owned(free, mail, d, owner)
    requires 0 <= b < |owner| && owner[b] == Held && 0 <= k <= |d|
    ensures Owned(free, mail, d[..k] + [b] + d[k..], owner[b := Delayed])
  {
    var owner' := owner[b := Delayed];
    NotInLists(free, mail, d, owner, b);
    OwnedRetag(free, mail, d, owner, b, Delayed);
    TaggedSlice(d, owner', Delayed, 0, k);
    TaggedSlice(d, owner', Delayed, k, |d|);
    TaggedJoin(d[..k], [b], owner', Delayed);
    TaggedJoin(d[..k] + [b], d[k..], owner', Delayed);
  }

  /** Inserting at the front of the delayed queue: b links to the old front and becomes the front. */
  lemma InsertDelayedFrontOk(link: seq<int>, ex: seq<int>, head: int, free: seq<int>, bf: seq<int>, bb: seq<int>,
                             mail: seq<seq<int>>, df: int, delayed: seq<int>, owner: seq<Owner>, b: int, e: int)
    requires PoolShape(link, ex, head, free, bf, bb, mail, df, delayed, owner)
    requires 0 <= b < NUM_MEMORY_BLOCKS && owner[b] == Held
    requires InsertPos(delayed, ex, e) == 0
    ensures PoolShape(link[b := df], ex[b := e], head, free, bf, bb, mail, b,
                      InsertByExpiry(delayed, ex, b, e), owner[b := Delayed])
  {
    var link' := link[b := df];
    var t := InsertByExpiry(delayed, ex, b, e);
    NotInLists(free, mail, delayed, owner, b);
    InsertByExpirySorted(delayed, ex, b, e);
    assert t == [b] + delayed;
    LinkedPrepend(link, delayed, b);
    WriteKeeps(link, owner, b, df, Free);
    FreeKeeps(link, link', head, free, owner);
    forall q | 0 <= q < NUM_PROCS
      ensures KeepsTagged(link, link', owner, Mailbox(q))
    {
      WriteKeeps(link, owner, b, df, Mailbox(q));
    }
    MailKeeps(link, link', bf, bb, mail, owner, NULL);
    InsertOwned(free, mail, delayed, owner, b, 0);
  }

  /** Inserting after the entry at index k - 1 of the delayed queue. */
  lemma InsertDelayedAfterOk(link: seq<int>, ex: seq<int>, head: int, free: seq<int>, bf: seq<int>, bb: seq<int>,
                             mail: seq<seq<int>>, df: int, delayed: seq<int>, owner: seq<Owner>, b: int, e: int)
    requires PoolShape(link, ex, head, free, bf, bb, mail, df, delayed, owner)
    requires 0 <= b < NUM_MEMORY_BLOCKS && owner[b] == Held
    requires InsertPos(delayed, ex, e) > 0
    ensures var prev := delayed[InsertPos(delayed, ex, e) - 1];
      PoolShape(link[b := link[prev]][prev := b], ex[b := e], head, free, bf, bb, mail, df,
                InsertByExpiry(delayed, ex, b, e), owner[b := Delayed])
  {
    var k := InsertPos(delayed, ex, e);
    var t := InsertByExpiry(delayed, ex, b, e);
    var prev := delayed[k - 1];
    var l1 := link[b := link[prev]];
    var l2 := l1[prev := b];
    NotInLists(free, mail, delayed, owner, b);
    InsertByExpirySorted(delayed, ex, b, e);
    LinkedInsert(link, delayed, k, b);
    assert owner[prev] == Delayed;
    forall t | t == Free || t.Mailbox?
      ensures KeepsTagged(link, l2, owner, t)
    {
      WriteKeeps(link, owner, b, link[prev], t);
      WriteKeeps(l1, owner, prev, b, t);
      KeepsChain(link, l1, l2, owner, t);
    }
    FreeKeeps(link, l2, head, free, owner);
    MailKeeps(link, l2, bf, bb, mail, owner, NULL);
    assert t[0] == delayed[0];
    InsertOwned(free, mail, delayed, owner, b, k);
  }

  /** Taking one entry out of a list sorted by expiry leaves it sorted. */
  lemma RemoveAtSorted(d: seq<int>, ex: seq<int>, k: int)
    requires SortedBy(d, ex) && 0 <= k < |d|
    ensures SortedBy(RemoveAt(d, k), ex)
  {
    var t := RemoveAt(d, k);
    forall i, j | 0 <= i < j < |t| && 0 <= t[i] < |ex| && 0 <= t[j] < |ex|
      ensures ex[t[i]] <= ex[t[j]]
    {
      var i' := if i < k then i else i + 1;
      var j' := if j < k then j else j + 1;
      assert t[i] == d[i'] && t[j] == d[j'];
    }
  }

  /** Removing the entry at index k of the delayed queue (the corrected remove_message_delayed). */
  lemma RemoveDelayedOk(link: seq<int>, ex: seq<int>, head: int, free: seq<int>, bf: seq<int>, bb: seq<int>,
                        mail: seq<seq<int>>, df: int, delayed: seq<int>, owner: seq<Owner>, k: int)
    requires PoolShape(link, ex, head, free, bf, bb, mail, df, delayed, owner)
    requires 0 <= k < |delayed|
    ensures var b := delayed[k];
      && 0 <= b < NUM_MEMORY_BLOCKS && owner[b] == Delayed
      && PoolShape(if k == 0 then link else link[delayed[k - 1] := link[b]], ex, head, free, bf, bb, mail,
                   if k == 0 then link[b] else df, RemoveAt(delayed, k), owner[b := Held])
  {
    if k == 0 {
      RemoveDelayedFrontOk(link, ex, head, free, bf, bb, mail, df, delayed, owner);
    } else {
      RemoveDelayedAfterOk(link, ex, head, free, bf, bb, mail, df, delayed, owner, k);
    }
  }

  /** The tags once the entry at index k has left the delayed queue and is held. */
  lemma RemoveDelayedOwned(free: seq<int>, mail: seq<seq<int>>, d: seq<int>, owner: seq<Owner>, k: int)
    requires Owned(free, mail, d, owner) && Distinct(d) && 0 <= k < |d| && 0 <= d[k] < |owner|
    ensures owner[d[k]] == Delayed
    ensures Owned(free, mail, RemoveAt(d, k), owner[d[k] := Held])
  {
    var b := d[k];
    DistinctRemoveAt(d, k);
    NotInLists(free, mail, d, owner, b);
    TaggedSlice(d, owner, Delayed, 0, k);
    TaggedSlice(d, owner, Delayed, k + 1, |d|);
    TaggedJoin(d[..k], d[k + 1..], owner, Delayed);
    OwnedRetag(free, mail, RemoveAt(d, k), owner, b, Held);
  }

  lemma RemoveDelayedFrontOk(link: seq<int>, ex: seq<int>, head: int, free: seq<int>, bf: seq<int>, bb: seq<int>,
                             mail: seq<seq<int>>, df: int, delayed: seq<int>, owner: seq<Owner>)
    requires PoolShape(link, ex, head, free, bf, bb, mail, df, delayed, owner)
    requires delayed != []
    ensures var b := delayed[0];
      && 0 <= b < NUM_MEMORY_BLOCKS && owner[b] == Delayed
      && PoolShape(link, ex, head, free, bf, bb, mail, link[b], RemoveAt(delayed, 0), owner[b := Held])
  {
    var d := delayed;
    assert Linked(link, d);
    LinkedDistinct(link, d);
    LinkedTail(link, d);
    assert RemoveAt(d, 0) == d[1..];
    RemoveAtSorted(d, ex, 0);
    RemoveDelayedOwned(free, mail, d, owner, 0);
  }

  lemma RemoveDelayedAfterOk(link: seq<int>, ex: seq<int>, head: int, free: seq<int>, bf: seq<int>, bb: seq<int>,
                             mail: seq<seq<int>>, df: int, delayed: seq<int>, owner: seq<Owner>, k: int)
    requires PoolShape(link, ex, head, free, bf, bb, mail, df, delayed, owner)
    requires 0 < k < |delayed|
    ensures var b := delayed[k];
      && 0 <= b < NUM_MEMORY_BLOCKS && owner[b] == Delayed
      && PoolShape(link[delayed[k - 1] := link[b]], ex, head, free, bf, bb, mail, df,
                   RemoveAt(delayed, k), owner[b := Held])
  {
    var d := delayed;
    var b := d[k];
    var l' := link[d[k - 1] := link[b]];
    assert Linked(link, d);
    LinkedDistinct(link, d);
    RemoveAtSorted(d, ex, k);
    RemoveDelayedLinks(link, d, k);
    assert owner[d[k - 1]] == Delayed;
    WriteKeeps(link, owner, d[k - 1], link[b], Free);
    FreeKeeps(link, l', head, free, owner);
    forall q | 0 <= q < NUM_PROCS
      ensures KeepsTagged(link, l', owner, Mailbox(q))
    {
      WriteKeeps(link, owner, d[k - 1], link[b], Mailbox(q));
    }
    MailKeeps(link, l', bf, bb, mail, owner, NULL);
    assert RemoveAt(d, k)[0] == d[0];
    RemoveDelayedOwned(free, mail, d, owner, k);
  }

  /** Unlinking the entry at index k > 0 by pointing its predecessor past it; its own link is left as it was. */
  lemma RemoveDelayedLinks(link: seq<int>, d: seq<int>, k: int)
    requires Linked(link, d) && Distinct(d) && 0 < k < |d|
    ensures Linked(link[d[k - 1] := link[d[k]]], RemoveAt(d, k))
  {
    var b := d[k];
    var t := RemoveAt(d, k);
    LinkedUnlink(link, d, k);
    DistinctRemoveAt(d, k);
    assert link[d[k - 1] := link[b]] == link[d[k - 1] := link[b]][b := NULL][b := link[b]];
    LinkedFrame(link[d[k - 1] := link[b]][b := NULL], b, link[b], t);
  }

  /** create_message_headers writes the link and the expiry of a held block, which is in no list. */
  lemma HeadersOk(link: seq<int>, ex: seq<int>, head: int, free: seq<int>, bf: seq<int>, bb: seq<int>,
                  mail: seq<seq<int>>, df: int, delayed: seq<int>, owner: seq<Owner>, b: int)
    requires PoolShape(link, ex, head, free, bf, bb, mail, df, delayed, owner)
    requires 0 <= b < NUM_MEMORY_BLOCKS && owner[b] == Held
    ensures PoolShape(link[b := NULL], ex[b := 0], head, free, bf, bb, mail, df, delayed, owner)
  {
    var link' := link[b := NULL];
    NotInLists(free, mail, delayed, owner, b);
    forall t | t == Free || t == Delayed || t.Mailbox?
      ensures KeepsTagged(link, link', owner, t)
    {
      WriteKeeps(link, owner, b, NULL, t);
    }
    FreeKeeps(link, link', head, free, owner);
    DelayedKeeps(link, link', df, delayed, ex, owner);
    MailKeeps(link, link', bf, bb, mail, owner, NULL);
    assert SortedBy(delayed, ex[b := 0]) by {
      forall i, j | 0 <= i < j < |delayed| && 0 <= delayed[i] < |ex| && 0 <= delayed[j] < |ex|
        ensures ex[b := 0][delayed[i]] <= ex[b := 0][delayed[j]]
      {
        assert delayed[i] != b && delayed[j] != b;
      }
    }
  }

  /* ---------------------------------------------------------------- */
  /* The same steps, stated on the new values of the fields            */
  /* ---------------------------------------------------------------- */

  /** The pointers of a mailbox: both NULL when it is empty, its first and last blocks otherwise. */
  lemma BoxEnds(link: seq<int>, ex: seq<int>, head: int, free: seq<int>, bf: seq<int>, bb: seq<int>,
                mail: seq<seq<int>>, df: int, delayed: seq<int>, owner: seq<Owner>, p: int)
    requires PoolShape(link, ex, head, free, bf, bb, mail, df, delayed, owner) && 0 <= p < NUM_PROCS
    ensures bf[p] == NULL <==> mail[p] == []
    ensures bb[p] == NULL <==> mail[p] == []
    ensures mail[p] != [] ==> bf[p] == mail[p][0] && IsBlock(bf[p]) && IsBlock(bb[p])
  {
    assert BoxOk(link, bf[p], bb[p], mail[p]);
  }

  /** Every entry of the delayed queue is a block. */
  lemma DelayedBlocks(link: seq<int>, ex: seq<int>, head: int, free: seq<int>, bf: seq<int>, bb: seq<int>,
                      mail: seq<seq<int>>, df: int, delayed: seq<int>, owner: seq<Owner>)
    requires PoolShape(link, ex, head, free, bf, bb, mail, df, delayed, owner)
    ensures forall i :: 0 <= i < |delayed| ==> IsBlock(delayed[i])
    ensures df == Head(delayed)
  {
    assert Linked(link, delayed);
  }

  lemma EnqueueShape(link: seq<int>, ex: seq<int>, head: int, free: seq<int>, bf: seq<int>, bb: seq<int>,
                     mail: seq<seq<int>>, df: int, delayed: seq<int>, owner: seq<Owner>, p: int, b: int,
                     link': seq<int>, bf': seq<int>, bb': seq<int>, mail': seq<seq<int>>, owner': seq<Owner>)
    requires PoolShape(link, ex, head, free, bf, bb, mail, df, delayed, owner)
    requires 0 <= p < NUM_PROCS && 0 <= b < NUM_MEMORY_BLOCKS && owner[b] == Held
    requires bb[p] != NULL ==> IsBlock(bb[p])
    requires link' == (if bb[p] == NULL then link[b := NULL] else link[b := NULL][bb[p] := b])
    requires bf' == (if bb[p] == NULL then bf[p := b] else bf) && bb' == bb[p := b]
    requires mail' == mail[p := mail[p] + [b]] && owner' == owner[b := Mailbox(p)]
    ensures PoolShape(link', ex, head, free, bf', bb', mail', df, delayed, owner')
  {
    EnqueueOk(link, ex, head, free, bf, bb, mail, df, delayed, owner, p, b);
  }

  lemma DequeueShape(link: seq<int>, ex: seq<int>, head: int, free: seq<int>, bf: seq<int>, bb: seq<int>,
                     mail: seq<seq<int>>, df: int, delayed: seq<int>, owner: seq<Owner>, p: int,
                     bf': seq<int>, bb': seq<int>, mail': seq<seq<int>>, owner': seq<Owner>)
    requires PoolShape(link, ex, head, free, bf, bb, mail, df, delayed, owner)
    requires 0 <= p < NUM_PROCS && mail[p] != [] && IsBlock(bf[p])
    requires bf' == (if bf[p] == bb[p] then bf[p := NULL] else bf[p := link[bf[p]]])
    requires bb' == (if bf[p] == bb[p] then bb[p := NULL] else bb)
    requires mail' == mail[p := mail[p][1..]] && owner' == owner[bf[p] := Held]
    ensures PoolShape(link, ex, head, free, bf', bb', mail', df, delayed, owner')
  {
    DequeueOk(link, ex, head, free, bf, bb, mail, df, delayed, owner, p);
  }

  lemma InsertDelayedShape(link: seq<int>, ex: seq<int>, head: int, free: seq<int>, bf: seq<int>, bb: seq<int>,
                           mail: seq<seq<int>>, df: int, delayed: seq<int>, owner: seq<Owner>, b: int, e: int,
                           link': seq<int>, ex': seq<int>, df': int, delayed': seq<int>, owner': seq<Owner>)
    requires PoolShape(link, ex, head, free, bf, bb, mail, df, delayed, owner)
    requires 0 <= b < NUM_MEMORY_BLOCKS && owner[b] == Held
    requires forall i :: 0 <= i < |delayed| ==> IsBlock(delayed[i])
    requires InsertPos(delayed, ex, e) == 0 ==> link' == link[b := df] && df' == b
    requires InsertPos(delayed, ex, e) > 0 ==>
      var prev := delayed[InsertPos(delayed, ex, e) - 1];
      link' == link[b := link[prev]][prev := b] && df' == df
    requires ex' == ex[b := e] && delayed' == InsertByExpiry(delayed, ex, b, e) && owner' == owner[b := Delayed]
    ensures PoolShape(link', ex', head, free, bf, bb, mail, df', delayed', owner')
  {
    if InsertPos(delayed, ex, e) == 0 {
      InsertDelayedFrontOk(link, ex, head, free, bf, bb, mail, df, delayed, owner, b, e);
    } else {
      InsertDelayedAfterOk(link, ex, head, free, bf, bb, mail, df, delayed, owner, b, e);
    }
  }

  lemma RemoveDelayedShape(link: seq<int>, ex: seq<int>, head: int, free: seq<int>, bf: seq<int>, bb: seq<int>,
                           mail: seq<seq<int>>, df: int, delayed: seq<int>, owner: seq<Owner>, k: int,
                           link': seq<int>, df': int, delayed': seq<int>, owner': seq<Owner>)
    requires PoolShape(link, ex, head, free, bf, bb, mail, df, delayed, owner)
    requires 0 <= k < |delayed| && forall i :: 0 <= i < |delayed| ==> IsBlock(delayed[i])
    requires k == 0 ==> link' == link && df' == link[delayed[0]]
    requires k > 0 ==> link' == link[delayed[k - 1] := link[delayed[k]]] && df' == df
    requires delayed' == RemoveAt(delayed, k) && owner' == owner[delayed[k] := Held]
    ensures PoolShape(link', ex, head, free, bf, bb, mail, df', delayed', owner')
  {
    RemoveDelayedOk(link, ex, head, free, bf, bb, mail, df, delayed, owner, k);
  }

  /* ---------------------------------------------------------------- */
  /* The sender a receiver is told                                     */
  /* ---------------------------------------------------------------- */

  /**
   * What k_receive_message hands process p: the block at the front of its
   * mailbox and the m_send_pid that block carries, or None when the
   * mailbox is empty.
   */
  function Front(mail: seq<seq<int>>, sendPid: seq<int>, p: int): (r: Option<(int, int)>)
    requires 0 <= p < |mail| && (mail[p] != [] ==> 0 <= mail[p][0] < |sendPid|)
    ensures r.None? <==> mail[p] == []
  {
    if mail[p] == [] then None else Some((mail[p][0], sendPid[mail[p][0]]))
  }

  /**
   * A block added to the back of mailbox p is received only after the
   * blocks already there: a non-empty mailbox keeps its front, and an
   * empty one has the new block at its front, reported with the
   * m_send_pid it carries, which is the sender exactly when the block was
   * stamped with it.
   */
  lemma PostedFront(mail: seq<seq<int>>, sendPid: seq<int>, p: int, b: int, sender: int)
    requires 0 <= p < |mail| && 0 <= b < |sendPid| && (mail[p] != [] ==> 0 <= mail[p][0] < |sendPid|)
    ensures mail[p] != [] ==> Front(mail[p := mail[p] + [b]], sendPid, p) == Front(mail, sendPid, p)
    ensures mail[p] == [] ==>
      (Front(mail[p := mail[p] + [b]], sendPid, p) == Some((b, sender)) <==> sendPid[b] == sender)
  {
  }

  /**
   * As written, k_send_message writes no header, so the receiver is told
   * the block's previous m_send_pid: block 0, last stamped by process 3
   * and then passed by process 2 to the empty mailbox of process 1, is
   * reported to process 1 as coming from process 3, not 2.
   */
  lemma UnstampedSendExample()
    ensures var mail: seq<seq<int>> := seq(NUM_PROCS, _ => []);
      var sendPid := seq(NUM_MEMORY_BLOCKS, _ => 3);
      && Front(mail[1 := mail[1] + [0]], sendPid, 1) == Some((0, 3))
      && Front(mail[1 := mail[1] + [0]], sendPid, 1) != Some((0, 2))
  {
  }

  /** Stamping the sender before the send, as k_send_message_envelope does, has the receiver told the sender. */
  lemma StampedSendReportsSender(mail: seq<seq<int>>, sendPid: seq<int>, p: int, b: int, sender: int)
    requires 0 <= p < |mail| && mail[p] == [] && 0 <= b < |sendPid|
    ensures Front(mail[p := mail[p] + [b]], sendPid[b := sender], p) == Some((b, sender))
  {
  }

  /* ---------------------------------------------------------------- */
  /* The pool as the kernel holds it                                   */
  /* ---------------------------------------------------------------- */

  class Pool {
    /** Word 0 of each block: the free-list link, or MSG_BUF.mp_next. */
    const link: array<int>
    /** MSG_BUF.m_send_pid, m_recv_pid and m_expiry of each block. */
    const sendPid: array<int>
    const recvPid: array<int>
    const expiry: array<int>
    /** gp_heap_head */
    var head: int
    /** mp_msg_queue_front and mp_msg_queue_back of each PCB */
    var boxFront: seq<int>
    var boxBack: seq<int>
    /** timeout_queue_front */
    var delayedFront: int

    ghost var free: seq<int>
    ghost var mail: seq<seq<int>>
    ghost var delayed: seq<int>
    ghost var owner: seq<Owner>
    /** The arrays the pool owns. */
    ghost function Repr(): set<object> {
      {link, sendPid, recvPid, expiry}
    }

    /** The lists are well formed, and every message waiting for delayed delivery carries the pid it is to be delivered to. */
    ghost predicate Valid()
      reads this, link, sendPid, recvPid, expiry
    {
      && link != sendPid && link != recvPid && link != expiry
      && sendPid != recvPid && sendPid != expiry && recvPid != expiry
      && sendPid.Length == NUM_MEMORY_BLOCKS && recvPid.Length == NUM_MEMORY_BLOCKS
      && PoolShape(link[..], expiry[..], head, free, boxFront, boxBack, mail, delayedFront, delayed, owner)
      && forall b :: 0 <= b < NUM_MEMORY_BLOCKS && owner[b] == Delayed ==> IsPid(recvPid[b])
    }

    /**
     * memory_init's heap loop: block i's link word names block i - 1 (block
     * 0's is NULL) and the head is the last block built, so the free list
     * holds all NUM_MEMORY_BLOCKS blocks from the highest down. Every
     * mailbox and the delayed queue start empty.
     */
    constructor ()
      ensures Valid() && fresh(Repr())
      ensures forall b :: 0 <= b < NUM_MEMORY_BLOCKS ==> link[b] == b - 1
      ensures head == NUM_MEMORY_BLOCKS - 1 && free == InitialFree()
      ensures |mail| == NUM_PROCS && (forall p :: 0 <= p < NUM_PROCS ==> mail[p] == []) && delayed == []
      ensures |owner| == NUM_MEMORY_BLOCKS && forall b :: 0 <= b < NUM_MEMORY_BLOCKS ==> owner[b] == Free
    {
      var l := new int[NUM_MEMORY_BLOCKS];
      var ex := new int[NUM_MEMORY_BLOCKS];
      var h := ThreadBlocks(l);
      InitialShape(l[..], ex[..], h, InitialFree(), seq(NUM_PROCS, _ => NULL), seq(NUM_PROCS, _ => NULL),
                   seq(NUM_PROCS, _ => []), NULL, [], seq(NUM_MEMORY_BLOCKS, _ => Free));
      link := l;
      sendPid := new int[NUM_MEMORY_BLOCKS];
      recvPid := new int[NUM_MEMORY_BLOCKS];
      expiry := ex;
      head := h;
      free := InitialFree();
      boxFront := seq(NUM_PROCS, _ => NULL);
      boxBack := seq(NUM_PROCS, _ => NULL);
      mail := seq(NUM_PROCS, _ => []);
      delayedFront := NULL;
      delayed := [];
      owner := seq(NUM_MEMORY_BLOCKS, _ => Free);
    }

    static method ThreadBlocks(link: array<int>) returns (head: int)
      requires link.Length == NUM_MEMORY_BLOCKS
      modifies link
      ensures head == NUM_MEMORY_BLOCKS - 1
      ensures forall b :: 0 <= b < NUM_MEMORY_BLOCKS ==> link[b] == b - 1
    {
      var previous := NULL;
      for i := 0 to NUM_MEMORY_BLOCKS
        invariant previous == i - 1
        invariant forall j :: 0 <= j < i ==> link[j] == j - 1
      {
        link[i] := previous;
        previous := i;
      }
      head := previous;
    }

    /**
     * The allocation half of k_request_memory_block: the block at the head
     * of the free list, which leaves the list and is held by the caller, or
     * NULL with nothing changed when the list is empty. The block handed out
     * is none of the blocks already held.
     */
    method Take() returns (b: int)
      requires Valid()
      modifies this
      ensures Valid()
      ensures old(free) == [] ==> b == NULL && free == [] && owner == old(owner)
      ensures old(free) != [] ==> b == old(free)[0] && free == old(free)[1..] && owner == old(owner)[b := Held]
      ensures b != NULL ==> IsBlock(b) && old(owner)[b] == Free
      ensures b != NULL ==> forall x :: 0 <= x < NUM_MEMORY_BLOCKS && old(owner)[x] == Held ==> x != b
      ensures mail == old(mail) && delayed == old(delayed) && boxFront == old(boxFront) && boxBack == old(boxBack)
      ensures delayedFront == old(delayedFront)
    {
      b := head;
      if head != NULL {
        TakeOk(link[..], expiry[..], head, free, boxFront, boxBack, mail, delayedFront, delayed, owner);
        head := link[head];
        free := free[1..];
        owner := owner[b := Held];
      }
    }

    /**
     * The heap half of k_release_memory_block: the block becomes the head of
     * the free list and its link word names the old head (last released,
     * first handed out again).
     */
    method Give(b: int)
      requires Valid() && IsBlock(b) && owner[b] == Held
      modifies this, link
      ensures Valid()
      ensures head == b && free == [b] + old(free) && owner == old(owner)[b := Free]
      ensures mail == old(mail) && delayed == old(delayed) && boxFront == old(boxFront) && boxBack == old(boxBack)
      ensures delayedFront == old(delayedFront)
    {
      GiveOk(link[..], expiry[..], head, free, boxFront, boxBack, mail, delayedFront, delayed, owner, b);
      var h := head;
      head := b;
      link[b] := h;
      free := [b] + free;
      owner := owner[b := Free];
    }

    /** enqueue_message: the held block b joins the back of pid's mailbox. */
    method Enqueue(pid: int, b: int)
      requires Valid() && IsPid(pid) && IsBlock(b) && owner[b] == Held
      modifies this, link
      ensures Valid()
      ensures mail == old(mail)[pid := old(mail)[pid] + [b]] && owner == old(owner)[b := Mailbox(pid)]
      ensures free == old(free) && delayed == old(delayed) && head == old(head) && delayedFront == old(delayedFront)
    {
      ghost var l, bf, bb, mail0, owner0 := link[..], boxFront, boxBack, mail, owner;
      BoxEnds(l, expiry[..], head, free, bf, bb, mail, delayedFront, delayed, owner, pid);
      link[b] := NULL;
      if boxBack[pid] == NULL {
        boxFront := boxFront[pid := b];
      } else {
        link[boxBack[pid]] := b;
      }
      boxBack := boxBack[pid := b];
      mail := mail[pid := mail[pid] + [b]];
      owner := owner[b := Mailbox(pid)];
      EnqueueShape(l, expiry[..], head, free, bf, bb, mail0, delayedFront, delayed, owner0, pid, b,
                   link[..], boxFront, boxBack, mail, owner);
    }

    /**
     * dequeue_message: the block at the front of pid's mailbox, which leaves
     * the mailbox and is held by the caller, or NULL with nothing changed
     * when the mailbox is empty.
     */
    method Dequeue(pid: int) returns (b: int)
      requires Valid() && IsPid(pid)
      modifies this
      ensures Valid()
      ensures old(mail)[pid] == [] ==> b == NULL && mail == old(mail) && owner == old(owner)
      ensures old(mail)[pid] != [] ==>
        && b == old(mail)[pid][0] && IsBlock(b)
        && mail == old(mail)[pid := old(mail)[pid][1..]] && owner == old(owner)[b := Held]
      ensures free == old(free) && delayed == old(delayed) && head == old(head) && delayedFront == old(delayedFront)
    {
      ghost var bf, bb, mail0, owner0 := boxFront, boxBack, mail, owner;
      BoxEnds(link[..], expiry[..], head, free, bf, bb, mail, delayedFront, delayed, owner, pid);
      b := boxFront[pid];
      if b == NULL {
        return;
      }
      if b == boxBack[pid] {
        boxFront := boxFront[pid := NULL];
        boxBack := boxBack[pid := NULL];
      } else {
        boxFront := boxFront[pid := link[b]];
      }
      mail := mail[pid := mail[pid][1..]];
      owner := owner[b := Held];
      DequeueShape(link[..], expiry[..], head, free, bf, bb, mail0, delayedFront, delayed, owner0, pid,
                   boxFront, boxBack, mail, owner);
    }

    /** create_message_headers: the held block gets a NULL link, its sender, its receiver and expiry 0. */
    method SetHeaders(b: int, send: int, recv: int)
      requires Valid() && IsBlock(b) && owner[b] == Held
      modifies link, sendPid, recvPid, expiry
      ensures Valid()
      ensures link[b] == NULL && sendPid[b] == send && recvPid[b] == recv && expiry[..] == old(expiry[..])[b := 0]
      ensures forall x :: 0 <= x < NUM_MEMORY_BLOCKS && x != b ==>
        sendPid[x] == old(sendPid[x]) && recvPid[x] == old(recvPid[x]) && expiry[x] == old(expiry[x])
    {
      HeadersOk(link[..], expiry[..], head, free, boxFront, boxBack, mail, delayedFront, delayed, owner, b);
      link[b] := NULL;
      sendPid[b] := send;
      recvPid[b] := recv;
      expiry[b] := 0;
    }

    /** The last entry of the delayed queue expiring before e, or NULL when every entry expires at e or later. */
    method FindInsertPoint(e: int) returns (cur: int, ghost k: int)
      requires Valid()
      ensures k == InsertPos(delayed, expiry[..], e)
      ensures k == 0 ==> cur == NULL
      ensures k > 0 ==> cur == delayed[k - 1]
    {
      ghost var d := delayed;
      ghost var ex := expiry[..];
      assert Linked(link[..], d);
      cur := delayedFront;
      if cur == NULL || expiry[cur] >= e {
        k := 0;
        cur := NULL;
        return;
      }
      k := 1;
      var next := link[cur];
      assert link[..][d[0]] == next;
      while next != NULL && expiry[next] < e
        invariant 1 <= k <= |d| && cur == d[k - 1] && next == Head(d[k..])
        invariant forall i :: 0 <= i < k ==> ex[d[i]] < e
        decreases |d| - k
      {
        cur := next;
        k := k + 1;
        next := link[cur];
        assert link[..][d[k - 1]] == next;
      }
      InsertPosIs(d, ex, e, k);
    }

    /**
     * insert_message_delayed: the held block b is stamped with expiry
     * timer + delay and placed in the delayed queue after every entry
     * expiring earlier and before every entry expiring at the same time or
     * later, so the queue stays sorted by expiry.
     */
    method InsertDelayed(b: int, delay: int, timer: int)
      requires Valid() && IsBlock(b) && owner[b] == Held && IsPid(recvPid[b])
      modifies this, link, expiry
      ensures Valid()
      ensures expiry[b] == timer + delay
      ensures forall x :: 0 <= x < NUM_MEMORY_BLOCKS && x != b ==> expiry[x] == old(expiry[x])
      ensures delayed == InsertByExpiry(old(delayed), old(expiry[..]), b, timer + delay)
      ensures owner == old(owner)[b := Delayed]
      ensures free == old(free) && mail == old(mail) && head == old(head)
      ensures boxFront == old(boxFront) && boxBack == old(boxBack)
    {
      var e := timer + delay;
      ghost var l, ex, df, d, owner0 := link[..], expiry[..], delayedFront, delayed, owner;
      ghost var rest := (free, mail, head, boxFront, boxBack);
      DelayedBlocks(l, ex, head, free, boxFront, boxBack, mail, df, d, owner);
      var cur, k := FindInsertPoint(e);
      if cur == NULL {
        link[b] := delayedFront;
        delayedFront := b;
      } else {
        link[b] := link[cur];
        link[cur] := b;
      }
      expiry[b] := e;
      delayed := InsertByExpiry(delayed, ex, b, e);
      owner := owner[b := Delayed];
      assert rest == (free, mail, head, boxFront, boxBack);
      InsertDelayedShape(l, ex, head, free, boxFront, boxBack, mail, df, d, owner0, b, e,
                         link[..], expiry[..], delayedFront, delayed, owner);
    }

    /** The entry of the delayed queue before b (NULL when b is the front), and b's index; k == |delayed| when b is absent. */
    method FindDelayed(b: int) returns (prev: int, found: bool, ghost k: int)
      requires Valid()
      ensures 0 <= k <= |delayed|
      ensures found <==> b in delayed
      ensures found ==> k < |delayed| && delayed[k] == b
      ensures forall j :: 0 <= j < k ==> delayed[j] != b
      ensures found && k == 0 ==> prev == NULL
      ensures found && k > 0 ==> prev == delayed[k - 1]
    {
      ghost var d := delayed;
      assert Linked(link[..], d);
      var current := delayedFront;
      prev := NULL;
      k := 0;
      while current != NULL
        invariant 0 <= k <= |d| && current == Head(d[k..])
        invariant k > 0 ==> prev == d[k - 1]
        invariant k == 0 ==> prev == NULL
        invariant b !in d[..k]
        decreases |d| - k
      {
        if current == b {
          found := true;
          return;
        }
        assert d[..k + 1] == d[..k] + [current];
        prev := current;
        current := link[current];
        assert link[..][d[k]] == current;
        k := k + 1;
      }
      assert d[..k] == d;
      found := false;
    }

    /**
     * remove_message_delayed as the queue needs it: b leaves the delayed
     * queue (and is held again) and every other entry stays, in order. The
     * source instead empties the whole queue when b is the front; that
     * behaviour is RemoveDelayedAsWritten below.
     */
    method RemoveDelayed(b: int)
      requires Valid()
      modifies this, link
      ensures Valid()
      ensures delayed == Remove(old(delayed), b)
      ensures b in old(delayed) ==> owner == old(owner)[b := Held]
      ensures b !in old(delayed) ==> owner == old(owner)
      ensures free == old(free) && mail == old(mail) && head == old(head)
      ensures boxFront == old(boxFront) && boxBack == old(boxBack)
    {
      var prev, found, k := FindDelayed(b);
      if found {
        RemoveFirstAt(delayed, k, b);
        UnlinkDelayed(prev, k);
      }
    }

    /** The unlinking step of remove_message_delayed for the entry at index k, whose predecessor is prev. */
    method UnlinkDelayed(prev: int, ghost k: int)
      requires Valid() && 0 <= k < |delayed|
      requires k == 0 ==> prev == NULL
      requires k > 0 ==> prev == delayed[k - 1]
      modifies this, link
      ensures Valid()
      ensures delayed == RemoveAt(old(delayed), k) && owner == old(owner)[old(delayed)[k] := Held]
      ensures free == old(free) && mail == old(mail) && head == old(head)
      ensures boxFront == old(boxFront) && boxBack == old(boxBack)
    {
      ghost var l, df, d, owner0 := link[..], delayedFront, delayed, owner;
      DelayedBlocks(l, expiry[..], head, free, boxFront, boxBack, mail, df, d, owner);
      assert Linked(l, d);
      var b := if prev == NULL then delayedFront else link[prev];
      assert b == d[k];
      if prev == NULL {
        delayedFront := link[b];
      } else {
        link[prev] := link[b];
      }
      delayed := RemoveAt(delayed, k);
      owner := owner[b := Held];
      RemoveDelayedShape(l, expiry[..], head, free, boxFront, boxBack, mail, df, d, owner0, k,
                         link[..], delayedFront, delayed, owner);
    }
  }
}

/**
 * The priority queue of src/pq.c: one FIFO bucket of PCBs per priority
 * level, each bucket a singly linked chain threaded through the PCBs'
 * mp_next words, with a front and a back pointer per level. PCBs are the
 * pids 0..NUM_PROCS-1 of the PCB table; front, back and next hold pids,
 * NULL is -1.
 */
module PriorityQueue {
  import opened Rtx
  import opened Chains

  /** Abstract content of a queue: bucket p lists the pids queued at priority p, front first. */
  type Buckets = seq<seq<int>>

  ghost predicate Members(q: Buckets) {
    forall p, i :: 0 <= p < |q| && 0 <= i < |q[p]| ==> q[p][i] >= 0
  }

  /** The lowest-numbered (highest-priority) non-empty level, or |q| when every level is empty. */
  function FirstNonEmpty(q: Buckets): (p: nat)
    ensures p <= |q|
    ensures forall k :: 0 <= k < p ==> q[k] == []
    ensures p < |q| ==> q[p] != []
  {
    if q == [] then 0
    else if q[0] != [] then 0
    else 1 + FirstNonEmpty(q[1..])
  }

  /** What pq_pop takes out: the front of the highest-priority non-empty level, or NULL. */
  function PopHighest(q: Buckets): (r: (int, Buckets))
  {
    var p := FirstNonEmpty(q);
    if p == |q| then (NULL, q) else (q[p][0], q[p := q[p][1..]])
  }

  /** The total number of queued pids. */
  function Size(q: Buckets): nat {
    if q == [] then 0 else |q[0]| + Size(q[1..])
  }

  /** All levels one after the other, highest priority first, each in FIFO order. */
  function Concat(q: Buckets): seq<int> {
    if q == [] then [] else q[0] + Concat(q[1..])
  }

  /** The pids that successive pops return until the queue is empty. */
  function Drain(q: Buckets): seq<int>
    requires Members(q)
    decreases Size(q)
  {
    var (pid, rest) := PopHighest(q);
    if pid == NULL then []
    else
      PopHighestShrinks(q);
      [pid] + Drain(rest)
  }

  lemma {:induction false} SizeUpdate(q: Buckets, p: int, s: seq<int>)
    requires 0 <= p < |q|
    ensures Size(q[p := s]) + |q[p]| == Size(q) + |s|
    decreases |q|
  {
    if p > 0 {
      assert q[p := s][1..] == q[1..][p - 1 := s];
      SizeUpdate(q[1..], p - 1, s);
    }
  }

  lemma PopHighestShrinks(q: Buckets)
    requires Members(q)
    ensures PopHighest(q).0 != NULL ==> Size(PopHighest(q).1) < Size(q)
    ensures Members(PopHighest(q).1)
  {
    var p := FirstNonEmpty(q);
    if p < |q| {
      SizeUpdate(q, p, q[p][1..]);
    }
  }

  /** pq_pop returns NULL exactly when every level is empty, and otherwise the front of the first non-empty level. */
  lemma PopHighestSpec(q: Buckets)
    requires Members(q)
    ensures PopHighest(q).0 == NULL <==> forall k :: 0 <= k < |q| ==> q[k] == []
    ensures PopHighest(q).0 == NULL ==> PopHighest(q).1 == q
    ensures PopHighest(q).0 != NULL ==>
      exists p :: 0 <= p < |q| && q[p] != [] && (forall k :: 0 <= k < p ==> q[k] == []) &&
                  PopHighest(q).0 == q[p][0] && PopHighest(q).1 == q[p := q[p][1..]]
  {
    var p := FirstNonEmpty(q);
    if p < |q| {
      assert q[p][0] >= 0;
    }
  }

  lemma {:induction false} ConcatHeadEmpty(q: Buckets)
    requires q != [] && q[0] == []
    ensures Concat(q) == Concat(q[1..])
  {
  }

  /**
   * Successive pops come out in non-decreasing priority order, FIFO within
   * a level: draining the queue lists its levels one after the other.
   */
  lemma {:induction false} DrainIsPriorityOrder(q: Buckets)
    requires Members(q)
    ensures Drain(q) == Concat(q)
    decreases Size(q)
  {
    var (pid, rest) := PopHighest(q);
    var p := FirstNonEmpty(q);
    PopHighestShrinks(q);
    if pid == NULL {
      ConcatEmpty(q);
    } else {
      DrainIsPriorityOrder(rest);
      ConcatPop(q, p);
    }
  }

  lemma {:induction false} ConcatEmpty(q: Buckets)
    requires forall k :: 0 <= k < |q| ==> q[k] == []
    ensures Concat(q) == []
  {
    if q != [] {
      ConcatEmpty(q[1..]);
    }
  }

  lemma {:induction false} ConcatPop(q: Buckets, p: int)
    requires 0 <= p < |q| && q[p] != []
    requires forall k :: 0 <= k < p ==> q[k] == []
    ensures Concat(q) == [q[p][0]] + Concat(q[p := q[p][1..]])
    decreases p
  {
    if p == 0 {
      assert q[0 := q[0][1..]][1..] == q[1..];
      assert q[0] == [q[0][0]] + q[0][1..];
    } else {
      ConcatPop(q[1..], p - 1);
      assert q[p := q[p][1..]][1..] == q[1..][p - 1 := q[p][1..]];
    }
  }

  /**
   * Front re-insertion (what the scheduler does with an interrupted
   * process): the pushed pid is popped before every other pid at its level
   * and after every pid of a higher-priority level.
   */
  lemma PushFrontDrainsFirstAtLevel(q: Buckets, pid: int, p: int)
    requires Members(q) && 0 <= p < |q| && pid >= 0
    ensures Members(q[p := [pid] + q[p]])
    ensures Drain(q[p := [pid] + q[p]]) == Concat(q[..p]) + [pid] + q[p] + Concat(q[p + 1..])
  {
    var q' := q[p := [pid] + q[p]];
    forall k, i | 0 <= k < |q'| && 0 <= i < |q'[k]|
      ensures q'[k][i] >= 0
    {
      if k == p && i > 0 {
        assert q'[k][i] == q[p][i - 1];
      }
    }
    DrainIsPriorityOrder(q');
    ConcatSplit(q', p);
    assert q'[..p] == q[..p] && q'[p + 1..] == q[p + 1..];
    assert q'[p] == [pid] + q[p];
  }

  lemma {:induction false} ConcatSplit(q: Buckets, p: int)
    requires 0 <= p < |q|
    ensures Concat(q) == Concat(q[..p]) + q[p] + Concat(q[p + 1..])
    decreases p
  {
    if p == 0 {
      assert q[..0] == [];
      assert q[1..] == q[p + 1..];
    } else {
      ConcatSplit(q[1..], p - 1);
      assert q[1..][..p - 1] == q[1..p];
      assert q[1..][p - 1 + 1..] == q[p + 1..];
      assert q[..p] == [q[0]] + q[1..p];
      assert Concat(q[..p]) == q[0] + Concat(q[1..p]);
    }
  }

  /**
   * The link structure of a queue, on the values of its three arrays: `f`
   * and `b` hold the front and back pid of each level, `n` the link of each
   * pid. Level p holds the list q[p]; loc[pid] is the level pid is queued
   * at, or NULL; a pid that is not queued has a NULL link.
   */
  ghost predicate Shape(f: seq<int>, b: seq<int>, n: seq<int>, q: Buckets, loc: seq<int>) {
    && |f| == NUM_PRIORITIES && |b| == NUM_PRIORITIES && |n| == NUM_PROCS
    && |q| == NUM_PRIORITIES && |loc| == NUM_PROCS
    && Links(n, q) && Ends(f, b, q) && Tags(q, loc) && Unqueued(n, loc)
  }

  /** Every level is a linked list through `n`. */
  ghost predicate Links(n: seq<int>, q: Buckets) {
    forall p :: 0 <= p < |q| ==> Linked(n, q[p])
  }

  /** The front and back pointers of every level. */
  ghost predicate Ends(f: seq<int>, b: seq<int>, q: Buckets)
    requires |f| == |q| && |b| == |q|
  {
    forall p :: 0 <= p < |q| ==> f[p] == Head(q[p]) && b[p] == Last(q[p])
  }

  /** loc[pid] is the level pid is queued at, and pid is in that level; NULL otherwise. */
  ghost predicate Tags(q: Buckets, loc: seq<int>) {
    && (forall p, i :: 0 <= p < |q| && 0 <= i < |q[p]| && 0 <= q[p][i] < |loc| ==> loc[q[p][i]] == p)
    && (forall pid :: 0 <= pid < |loc| && loc[pid] != NULL ==> 0 <= loc[pid] < |q| && pid in q[loc[pid]])
  }

  /** A pid that is in no level has a NULL link. */
  ghost predicate Unqueued(n: seq<int>, loc: seq<int>)
    requires |n| == |loc|
  {
    forall pid :: 0 <= pid < |loc| && loc[pid] == NULL ==> n[pid] == NULL
  }

  lemma ShapeLoc(f: seq<int>, b: seq<int>, n: seq<int>, q: Buckets, loc: seq<int>, pid: int)
    requires Shape(f, b, n, q, loc) && 0 <= pid < NUM_PROCS
    ensures forall p :: 0 <= p < NUM_PRIORITIES ==> (pid in q[p] <==> loc[pid] == p)
  {
    forall p | 0 <= p < NUM_PRIORITIES
      ensures pid in q[p] <==> loc[pid] == p
    {
      if pid in q[p] {
        var i :| 0 <= i < |q[p]| && q[p][i] == pid;
      }
    }
  }

  lemma ShapeMembers(f: seq<int>, b: seq<int>, n: seq<int>, q: Buckets, loc: seq<int>)
    requires Shape(f, b, n, q, loc)
    ensures Members(q)
  {
    forall p, i | 0 <= p < |q| && 0 <= i < |q[p]|
      ensures q[p][i] >= 0
    {
      assert Linked(n, q[p]);
    }
  }

  /** Every pid queued in q is a slot of the PCB table. */
  ghost predicate Queued(q: Buckets) {
    forall k, i :: 0 <= k < |q| && 0 <= i < |q[k]| ==> IsPid(q[k][i])
  }

  /** No level of q holds a pid twice. */
  ghost predicate Unrepeated(q: Buckets) {
    forall k :: 0 <= k < |q| ==> Distinct(q[k])
  }

  lemma ShapeQueued(f: seq<int>, b: seq<int>, n: seq<int>, q: Buckets, loc: seq<int>)
    requires Shape(f, b, n, q, loc)
    ensures Queued(q) && Unrepeated(q) && Tags(q, loc)
  {
    forall p, i | 0 <= p < |q| && 0 <= i < |q[p]|
      ensures IsPid(q[p][i])
    {
      assert Linked(n, q[p]);
    }
    forall p | 0 <= p < |q|
      ensures Distinct(q[p])
    {
      LinkedDistinct(n, q[p]);
    }
  }

  /** pq_push: the shape of the queue after the writes, given as the new values. */
  lemma PushShape(f: seq<int>, b: seq<int>, n: seq<int>, q: Buckets, loc: seq<int>, pid: int, p: int,
                  f': seq<int>, b': seq<int>, n': seq<int>, q': Buckets, loc': seq<int>)
    requires Shape(f, b, n, q, loc)
    requires 0 <= pid < NUM_PROCS && 0 <= p < NUM_PRIORITIES && loc[pid] == NULL
    requires q[p] == [] ==> f' == f[p := pid] && b' == b[p := pid] && n' == n
    requires q[p] != [] ==> f' == f && b' == b[p := pid] && 0 <= b[p] < NUM_PROCS && n' == n[b[p] := pid]
    requires q' == q[p := q[p] + [pid]] && loc' == loc[pid := p]
    ensures Shape(f', b', n', q', loc')
  {
    PushValues(f, b, n, q, loc, pid, p);
  }

  /** pq_push_front: the shape of the queue after the writes, given as the new values. */
  lemma PushFrontShape(f: seq<int>, b: seq<int>, n: seq<int>, q: Buckets, loc: seq<int>, pid: int, p: int,
                       f': seq<int>, b': seq<int>, n': seq<int>, q': Buckets, loc': seq<int>)
    requires Shape(f, b, n, q, loc)
    requires 0 <= pid < NUM_PROCS && 0 <= p < NUM_PRIORITIES && loc[pid] == NULL
    requires q[p] == [] ==> f' == f[p := pid] && b' == b[p := pid] && n' == n
    requires q[p] != [] ==> f' == f[p := pid] && b' == b && n' == n[pid := f[p]]
    requires q' == q[p := [pid] + q[p]] && loc' == loc[pid := p]
    ensures Shape(f', b', n', q', loc')
  {
    PushFrontValues(f, b, n, q, loc, pid, p);
  }

  /** pq_pop_front on a non-empty level: the shape of the queue after the writes, given as the new values. */
  lemma PopFrontShape(f: seq<int>, b: seq<int>, n: seq<int>, q: Buckets, loc: seq<int>, p: int,
                      f': seq<int>, b': seq<int>, n': seq<int>, q': Buckets, loc': seq<int>)
    requires Shape(f, b, n, q, loc)
    requires 0 <= p < NUM_PRIORITIES && q[p] != [] && 0 <= f[p] < NUM_PROCS
    requires f' == f[p := n[f[p]]] && b' == (if n[f[p]] == NULL then b[p := NULL] else b)
    requires n' == n[f[p] := NULL] && q' == q[p := q[p][1..]] && loc' == loc[f[p] := NULL]
    ensures Shape(f', b', n', q', loc')
  {
    PopFrontValues(f, b, n, q, loc, p);
  }

  /** The front of a non-empty level is a pid, and it is the first element of the level. */
  lemma FrontPoint(f: seq<int>, b: seq<int>, n: seq<int>, q: Buckets, loc: seq<int>, p: int)
    requires Shape(f, b, n, q, loc)
    requires 0 <= p < NUM_PRIORITIES && q[p] != []
    ensures f[p] == q[p][0] && 0 <= f[p] < NUM_PROCS
  {
    assert Linked(n, q[p]);
  }

  /** The back of a non-empty level is a pid. */
  lemma BackPoint(f: seq<int>, b: seq<int>, n: seq<int>, q: Buckets, loc: seq<int>, p: int)
    requires Shape(f, b, n, q, loc)
    requires 0 <= p < NUM_PRIORITIES && q[p] != []
    ensures b[p] == Last(q[p]) && 0 <= b[p] < NUM_PROCS
  {
    assert Linked(n, q[p]);
  }

  /** The effect of pq_push on the link structure. */
  lemma PushValues(f: seq<int>, b: seq<int>, n: seq<int>, q: Buckets, loc: seq<int>, pid: int, p: int)
    requires Shape(f, b, n, q, loc)
    requires 0 <= pid < NUM_PROCS && 0 <= p < NUM_PRIORITIES && loc[pid] == NULL
    ensures q[p] == [] ==>
      Shape(f[p := pid], b[p := pid], n, q[p := q[p] + [pid]], loc[pid := p])
    ensures q[p] != [] ==>
      Shape(f, b[p := pid], n[b[p] := pid], q[p := q[p] + [pid]], loc[pid := p])
  {
    var s := q[p];
    var t := s + [pid];
    OutOfLevels(n, q, loc, pid);
    LinkedAppend(n, s, pid);
    PushTags(q, loc, p, pid, t);
    if s != [] {
      BackPoint(f, b, n, q, loc, p);
      assert loc[b[p]] == p;
      OtherLevelsFrame(n, q, loc, p, b[p], pid);
    }
  }

  /** The effect of pq_push_front on the link structure. */
  lemma PushFrontValues(f: seq<int>, b: seq<int>, n: seq<int>, q: Buckets, loc: seq<int>, pid: int, p: int)
    requires Shape(f, b, n, q, loc)
    requires 0 <= pid < NUM_PROCS && 0 <= p < NUM_PRIORITIES && loc[pid] == NULL
    ensures q[p] == [] ==>
      Shape(f[p := pid], b[p := pid], n, q[p := [pid] + q[p]], loc[pid := p])
    ensures q[p] != [] ==>
      Shape(f[p := pid], b, n[pid := f[p]], q[p := [pid] + q[p]], loc[pid := p])
  {
    var s := q[p];
    var t := [pid] + s;
    OutOfLevels(n, q, loc, pid);
    LinkedPrepend(n, s, pid);
    PushTags(q, loc, p, pid, t);
    OtherLevelsFrame(n, q, loc, p, pid, Head(s));
    if s == [] {
      assert n[pid := Head(s)] == n;
    } else {
      assert Last(t) == Last(s);
    }
  }

  /** A pid that is queued nowhere is in no level. */
  lemma OutOfLevels(n: seq<int>, q: Buckets, loc: seq<int>, pid: int)
    requires Links(n, q) && Tags(q, loc) && |loc| == |n|
    requires 0 <= pid < |loc| && loc[pid] == NULL
    ensures forall k :: 0 <= k < |q| ==> pid !in q[k]
  {
    forall k, i | 0 <= k < |q| && 0 <= i < |q[k]|
      ensures q[k][i] != pid
    {
      assert Linked(n, q[k]);
    }
  }

  /** Writing the link of a pid that is unqueued or queued at level p leaves every other level intact. */
  lemma OtherLevelsFrame(n: seq<int>, q: Buckets, loc: seq<int>, p: int, x: int, v: int)
    requires Links(n, q) && Tags(q, loc) && |loc| == |n|
    requires 0 <= p < |q| && 0 <= x < |n| && (loc[x] == p || loc[x] == NULL)
    ensures forall k :: 0 <= k < |q| && k != p ==> Linked(n[x := v], q[k])
  {
    forall k | 0 <= k < |q| && k != p
      ensures Linked(n[x := v], q[k])
    {
      assert Linked(n, q[k]);
      forall i | 0 <= i < |q[k]|
        ensures q[k][i] != x
      {
        assert loc[q[k][i]] == k;
      }
      LinkedFrame(n, x, v, q[k]);
    }
  }

  /** Adding an unqueued pid to level p, whose new content t holds the old content and pid and nothing else. */
  lemma PushTags(q: Buckets, loc: seq<int>, p: int, pid: int, t: seq<int>)
    requires Tags(q, loc) && 0 <= p < |q| && 0 <= pid < |loc| && loc[pid] == NULL
    requires pid in t && (forall i :: 0 <= i < |t| ==> t[i] == pid || t[i] in q[p])
    requires forall x :: x in q[p] ==> x in t
    ensures Tags(q[p := t], loc[pid := p])
  {
    var q', loc' := q[p := t], loc[pid := p];
    forall k, i | 0 <= k < |q'| && 0 <= i < |q'[k]| && 0 <= q'[k][i] < |loc'|
      ensures loc'[q'[k][i]] == k
    {
      var x := q'[k][i];
      if k == p {
        if x != pid {
          var j :| 0 <= j < |q[p]| && q[p][j] == x;
          assert loc[q[p][j]] == p;
        }
      } else {
        assert loc[q[k][i]] == k;
      }
    }
  }

  /** The effect of pq_pop_front on a non-empty level. */
  lemma PopFrontValues(f: seq<int>, b: seq<int>, n: seq<int>, q: Buckets, loc: seq<int>, p: int)
    requires Shape(f, b, n, q, loc)
    requires 0 <= p < NUM_PRIORITIES && q[p] != []
    ensures var pid := f[p];
      && pid == q[p][0] && 0 <= pid < NUM_PROCS
      && Shape(f[p := n[pid]], if n[pid] == NULL then b[p := NULL] else b, n[pid := NULL],
               q[p := q[p][1..]], loc[pid := NULL])
  {
    var s := q[p];
    var pid := s[0];
    assert Linked(n, s);
    var n' := n[pid := NULL];
    var q' := q[p := s[1..]];
    var loc' := loc[pid := NULL];
    var b' := if n[pid] == NULL then b[p := NULL] else b;
    assert loc[pid] == p;
    LinkedDistinct(n, s);
    PopFrontLinks(n, q, p);
    PopFrontEnds(f, b, n, q, p);
    PopFrontTags(q, loc, p);
    assert Unqueued(n', loc');
  }

  lemma PopFrontLinks(n: seq<int>, q: Buckets, p: int)
    requires Links(n, q) && 0 <= p < |q| && q[p] != []
    requires forall k, i :: 0 <= k < |q| && k != p && 0 <= i < |q[k]| ==> q[k][i] != q[p][0]
    ensures Links(n[q[p][0] := NULL], q[p := q[p][1..]])
  {
    var s := q[p];
    var pid := s[0];
    assert Linked(n, s);
    LinkedTail(n, s);
    LinkedDistinct(n, s);
    var n' := n[pid := NULL];
    var q' := q[p := s[1..]];
    forall k | 0 <= k < |q'|
      ensures Linked(n', q'[k])
    {
      if k != p {
        assert Linked(n, q[k]);
        LinkedFrame(n, pid, NULL, q[k]);
      } else {
        assert pid !in s[1..];
        LinkedFrame(n, pid, NULL, s[1..]);
      }
    }
  }

  lemma PopFrontEnds(f: seq<int>, b: seq<int>, n: seq<int>, q: Buckets, p: int)
    requires |f| == |q| && |b| == |q| && Ends(f, b, q) && Links(n, q)
    requires 0 <= p < |q| && q[p] != []
    ensures var pid := q[p][0];
      Ends(f[p := n[pid]], if n[pid] == NULL then b[p := NULL] else b, q[p := q[p][1..]])
  {
    var s := q[p];
    assert Linked(n, s);
    LinkedTail(n, s);
    if |s| > 1 {
      assert Last(s[1..]) == Last(s);
    }
  }

  lemma PopFrontTags(q: Buckets, loc: seq<int>, p: int)
    requires Tags(q, loc) && 0 <= p < |q| && q[p] != [] && 0 <= q[p][0] < |loc|
    requires forall i :: 0 < i < |q[p]| ==> q[p][i] != q[p][0]
    ensures Tags(q[p := q[p][1..]], loc[q[p][0] := NULL])
  {
    var s := q[p];
    var pid := s[0];
    var q' := q[p := s[1..]];
    var loc' := loc[pid := NULL];
    forall k, i | 0 <= k < |q'| && 0 <= i < |q'[k]| && 0 <= q'[k][i] < |loc'|
      ensures loc'[q'[k][i]] == k
    {
      if k == p {
        assert q'[k][i] == s[i + 1];
      } else {
        assert loc[q[k][i]] == k;
      }
    }
    forall x | 0 <= x < |loc'| && loc'[x] != NULL
      ensures 0 <= loc'[x] < |q'| && x in q'[loc'[x]]
    {
      if loc[x] == p {
        var i :| 0 <= i < |s| && s[i] == x;
        assert i != 0;
        assert s[1..][i - 1] == x;
      }
    }
  }

  /** The element at index k > 0 of level p and its predecessor are pids, and the predecessor links to it. */
  lemma UnlinkPoints(f: seq<int>, b: seq<int>, n: seq<int>, q: Buckets, loc: seq<int>, p: int, k: int)
    requires Shape(f, b, n, q, loc)
    requires 0 <= p < NUM_PRIORITIES && 0 < k < |q[p]|
    ensures 0 <= q[p][k - 1] < NUM_PROCS && 0 <= q[p][k] < NUM_PROCS && n[q[p][k - 1]] == q[p][k]
  {
    assert Linked(n, q[p]);
  }

  /**
   * The effect of the corrected pq_pop_PCB on the element at index k > 0 of
   * level p: its predecessor takes over its link, and the back moves to the
   * predecessor when the element was the last one.
   */
  lemma UnlinkShape(f: seq<int>, b: seq<int>, n: seq<int>, q: Buckets, loc: seq<int>, p: int, k: int,
                    b': seq<int>, n': seq<int>, q': Buckets, loc': seq<int>)
    requires Shape(f, b, n, q, loc)
    requires 0 <= p < NUM_PRIORITIES && 0 < k < |q[p]|
    requires 0 <= q[p][k - 1] < NUM_PROCS && 0 <= q[p][k] < NUM_PROCS
    requires b' == (if b[p] == q[p][k] then b[p := q[p][k - 1]] else b)
    requires n' == n[q[p][k - 1] := n[q[p][k]]][q[p][k] := NULL]
    requires q' == q[p := RemoveAt(q[p], k)] && loc' == loc[q[p][k] := NULL]
    ensures Shape(f, b', n', q', loc')
  {
    UnlinkValues(f, b, n, q, loc, p, k);
  }

  lemma UnlinkValues(f: seq<int>, b: seq<int>, n: seq<int>, q: Buckets, loc: seq<int>, p: int, k: int)
    requires Shape(f, b, n, q, loc)
    requires 0 <= p < NUM_PRIORITIES && 0 < k < |q[p]|
    ensures var s := q[p]; var prev := s[k - 1]; var pid := s[k];
      && 0 <= prev < NUM_PROCS && 0 <= pid < NUM_PROCS
      && Shape(f, if b[p] == pid then b[p := prev] else b, n[prev := n[pid]][pid := NULL],
               q[p := RemoveAt(s, k)], loc[pid := NULL])
  {
    var s := q[p];
    UnlinkPoints(f, b, n, q, loc, p, k);
    OtherLevelsDisjoint(n, q, loc, p, k);
    UnlinkLinks(n, q, p, k);
    UnlinkEnds(f, b, n, q, p, k);
    assert Linked(n, s);
    LinkedDistinct(n, s);
    UnlinkTags(q, loc, p, k);
    UnlinkUnqueued(n, loc, s[k - 1], s[k]);
  }

  /** No element of another level is the element at index k of level p or its predecessor. */
  lemma OtherLevelsDisjoint(n: seq<int>, q: Buckets, loc: seq<int>, p: int, k: int)
    requires Links(n, q) && Tags(q, loc) && |loc| == |n|
    requires 0 <= p < |q| && 0 < k < |q[p]|
    ensures forall j, i :: 0 <= j < |q| && j != p && 0 <= i < |q[j]| ==>
      q[j][i] != q[p][k] && q[j][i] != q[p][k - 1]
  {
    assert Linked(n, q[p]);
    forall j, i | 0 <= j < |q| && j != p && 0 <= i < |q[j]|
      ensures q[j][i] != q[p][k] && q[j][i] != q[p][k - 1]
    {
      assert Linked(n, q[j]);
      assert loc[q[j][i]] == j;
    }
  }

  lemma UnlinkUnqueued(n: seq<int>, loc: seq<int>, prev: int, pid: int)
    requires |n| == |loc| && Unqueued(n, loc)
    requires 0 <= prev < |n| && 0 <= pid < |n| && loc[prev] != NULL
    ensures Unqueued(n[prev := n[pid]][pid := NULL], loc[pid := NULL])
  {
  }

  lemma UnlinkLinks(n: seq<int>, q: Buckets, p: int, k: int)
    requires Links(n, q) && 0 <= p < |q| && 0 < k < |q[p]|
    requires forall j, i :: 0 <= j < |q| && j != p && 0 <= i < |q[j]| ==>
      q[j][i] != q[p][k] && q[j][i] != q[p][k - 1]
    ensures Links(n[q[p][k - 1] := n[q[p][k]]][q[p][k] := NULL], q[p := RemoveAt(q[p], k)])
  {
    var s := q[p];
    assert Linked(n, s);
    var prev := s[k - 1];
    var pid := s[k];
    LinkedUnlink(n, s, k);
    var n' := n[prev := n[pid]][pid := NULL];
    var q' := q[p := RemoveAt(s, k)];
    forall j | 0 <= j < |q'|
      ensures Linked(n', q'[j])
    {
      if j != p {
        assert Linked(n, q[j]);
        LinkedFrame(n, prev, n[pid], q[j]);
        LinkedFrame(n[prev := n[pid]], pid, NULL, q[j]);
      }
    }
  }

  lemma UnlinkEnds(f: seq<int>, b: seq<int>, n: seq<int>, q: Buckets, p: int, k: int)
    requires |f| == |q| && |b| == |q| && Ends(f, b, q) && Links(n, q)
    requires 0 <= p < |q| && 0 < k < |q[p]|
    ensures var s := q[p];
      Ends(f, if b[p] == s[k] then b[p := s[k - 1]] else b, q[p := RemoveAt(s, k)])
  {
    var s := q[p];
    var t := RemoveAt(s, k);
    assert Linked(n, s);
    LinkedDistinct(n, s);
    assert t[0] == s[0];
    if k == |s| - 1 {
      assert Last(t) == s[k - 1];
    } else {
      assert Last(t) == Last(s) && Last(s) != s[k];
    }
  }

  lemma UnlinkTags(q: Buckets, loc: seq<int>, p: int, k: int)
    requires Tags(q, loc) && 0 <= p < |q| && 0 < k < |q[p]| && 0 <= q[p][k] < |loc|
    requires forall i :: 0 <= i < |q[p]| && i != k ==> q[p][i] != q[p][k]
    ensures Tags(q[p := RemoveAt(q[p], k)], loc[q[p][k] := NULL])
  {
    var s := q[p];
    var pid := s[k];
    var t := RemoveAt(s, k);
    var q' := q[p := t];
    var loc' := loc[pid := NULL];
    forall j, i | 0 <= j < |q'| && 0 <= i < |q'[j]| && 0 <= q'[j][i] < |loc'|
      ensures loc'[q'[j][i]] == j
    {
      if j == p {
        if i < k {
          assert t[i] == s[i];
        } else {
          assert t[i] == s[i + 1];
        }
      } else {
        assert loc[q[j][i]] == j;
      }
    }
    forall x | 0 <= x < |loc'| && loc'[x] != NULL
      ensures 0 <= loc'[x] < |q'| && x in q'[loc'[x]]
    {
      if loc[x] == p {
        var i :| 0 <= i < |s| && s[i] == x;
        if i < k {
          assert t[i] == x;
        } else {
          assert i != k;
          assert t[i - 1] == x;
        }
      }
    }
  }

  /** The queue itself: three arrays, with the ghost content `buckets` and locations `loc`. */
  class PQ {
    const front: array<int>
    const back: array<int>
    const next: array<int>
    ghost var buckets: Buckets
    ghost var loc: seq<int>
    /** The arrays the queue owns. */
    ghost function Repr(): set<object> {
      {front, back, next}
    }

    ghost predicate Valid()
      reads this, front, back, next
    {
      && front != back && front != next && back != next
      && Shape(front[..], back[..], next[..], buckets, loc)
    }

    /** A well-formed queue holds only pids, each at most once, at the level loc records. */
    lemma Pids()
      requires Valid()
      ensures Queued(buckets) && Unrepeated(buckets) && Tags(buckets, loc)
    {
      ShapeQueued(front[..], back[..], next[..], buckets, loc);
    }

    /** Every level empty, every link NULL (the start of process_init). */
    constructor ()
      ensures Valid() && fresh(Repr())
      ensures |buckets| == NUM_PRIORITIES && (forall p :: 0 <= p < NUM_PRIORITIES ==> buckets[p] == [])
      ensures |loc| == NUM_PROCS && (forall p :: 0 <= p < NUM_PROCS ==> loc[p] == NULL)
    {
      front := new int[NUM_PRIORITIES](_ => NULL);
      back := new int[NUM_PRIORITIES](_ => NULL);
      next := new int[NUM_PROCS](_ => NULL);
      buckets := seq(NUM_PRIORITIES, _ => []);
      loc := seq(NUM_PROCS, _ => NULL);
    }

    /** pq_is_priority_empty: true for a level outside HIGH..HIDDEN, otherwise true iff that level is empty. */
    function IsPriorityEmpty(priority: int): (r: bool)
      requires Valid()
      reads this, front, back, next
      ensures r <==> !(HIGH <= priority <= HIDDEN) || buckets[priority] == []
    {
      if priority < HIGH || priority > HIDDEN then true
      else
        assert front[..][priority] == Head(buckets[priority]);
        assert buckets[priority] != [] ==> buckets[priority][0] >= 0;
        front[priority] == NULL
    }

    /** pq_push: append pid to the back of level `priority`. */
    method Push(pid: int, priority: int)
      requires Valid()
      requires 0 <= pid < NUM_PROCS && HIGH <= priority <= HIDDEN
      requires loc[pid] == NULL
      modifies this, front, back, next
      ensures Valid()
      ensures buckets == old(buckets)[priority := old(buckets)[priority] + [pid]]
      ensures loc == old(loc)[pid := priority]
    {
      ghost var f, b, n, q, l := front[..], back[..], next[..], buckets, loc;
      if IsPriorityEmpty(priority) {
        front[priority] := pid;
        back[priority] := pid;
      } else {
        BackPoint(f, b, n, q, l, priority);
        next[back[priority]] := pid;
        back[priority] := pid;
      }
      buckets := buckets[priority := buckets[priority] + [pid]];
      loc := loc[pid := priority];
      PushShape(f, b, n, q, l, pid, priority, front[..], back[..], next[..], buckets, loc);
    }

    /** pq_push_front: prepend pid to the front of level `priority`. */
    method PushFront(pid: int, priority: int)
      requires Valid()
      requires 0 <= pid < NUM_PROCS && HIGH <= priority <= HIDDEN
      requires loc[pid] == NULL
      modifies this, front, back, next
      ensures Valid()
      ensures buckets == old(buckets)[priority := [pid] + old(buckets)[priority]]
      ensures loc == old(loc)[pid := priority]
    {
      ghost var f, b, n, q, l := front[..], back[..], next[..], buckets, loc;
      if IsPriorityEmpty(priority) {
        front[priority] := pid;
        back[priority] := pid;
      } else {
        next[pid] := front[priority];
        front[priority] := pid;
      }
      buckets := buckets[priority := [pid] + buckets[priority]];
      loc := loc[pid := priority];
      PushFrontShape(f, b, n, q, l, pid, priority, front[..], back[..], next[..], buckets, loc);
    }

    /**
     * pq_pop_front: NULL and no change when level `priority` is empty or out
     * of range; otherwise the old front, whose link is cleared, and the level
     * becomes its tail (front and back both NULL once it is empty).
     */
    method PopFront(priority: int) returns (pid: int)
      requires Valid()
      modifies this, front, back, next
      ensures Valid()
      ensures old(IsPriorityEmpty(priority)) ==>
        pid == NULL && buckets == old(buckets) && loc == old(loc) && unchanged(front, back, next)
      ensures !old(IsPriorityEmpty(priority)) ==>
        && pid == old(buckets)[priority][0]
        && buckets == old(buckets)[priority := old(buckets)[priority][1..]]
        && loc == old(loc)[pid := NULL]
        && next[pid] == NULL
        && (buckets[priority] == [] ==> front[priority] == NULL && back[priority] == NULL)
    {
      if IsPriorityEmpty(priority) {
        return NULL;
      }
      ghost var f, b, n, q, l := front[..], back[..], next[..], buckets, loc;
      FrontPoint(f, b, n, q, l, priority);
      pid := front[priority];
      front[priority] := next[pid];
      if front[priority] == NULL {
        back[priority] := NULL;
      }
      next[pid] := NULL;
      buckets := buckets[priority := buckets[priority][1..]];
      loc := loc[pid := NULL];
      PopFrontShape(f, b, n, q, l, priority, front[..], back[..], next[..], buckets, loc);
    }

    /**
     * The traversal loop of pq_pop_PCB on a level whose front is not pid:
     * walk the links until the next element is pid or NULL. `found` is
     * whether the walk stopped in front of pid.
     */
    method FindPredecessor(pid: int, priority: int) returns (temp: int, found: bool, ghost k: int)
      requires Valid()
      requires 0 <= pid < NUM_PROCS && HIGH <= priority <= HIDDEN
      requires buckets[priority] != [] && buckets[priority][0] != pid
      ensures 0 <= k < |buckets[priority]| && temp == buckets[priority][k]
      ensures forall j :: 0 <= j <= k ==> buckets[priority][j] != pid
      ensures found <==> pid in buckets[priority]
      ensures found ==> k + 1 < |buckets[priority]| && buckets[priority][k + 1] == pid && next[temp] == pid
    {
      ghost var s := buckets[priority];
      assert Linked(next[..], s);
      assert front[..][priority] == Head(s);
      temp := front[priority];
      k := 0;
      while next[temp] != NULL && next[temp] != pid
        invariant 0 <= k < |s| && temp == s[k]
        invariant forall j :: 0 <= j <= k ==> s[j] != pid
        decreases |s| - k
      {
        assert next[..][s[k]] == next[temp];
        temp := next[temp];
        k := k + 1;
      }
      assert next[..][s[k]] == next[temp];
      if k < |s| - 1 {
        assert next[..][s[k]] == s[k + 1] && s[k + 1] >= 0;
      }
      found := next[temp] != NULL;
      if !found {
        assert k == |s| - 1;
      }
    }

    /**
     * pq_pop_PCB, with the two defects of the source corrected (see
     * PopPcbAsWritten): an empty level answers NULL instead of following a
     * NULL pointer, and removing the last element moves `back` to its
     * predecessor. Returns pid and unlinks it if it is queued at level
     * `priority`; otherwise returns NULL and changes nothing.
     */
    method PopPcb(pid: int, priority: int) returns (r: int)
      requires Valid()
      requires 0 <= pid < NUM_PROCS && HIGH <= priority <= HIDDEN
      modifies this, front, back, next
      ensures Valid()
      ensures old(loc)[pid] == priority ==>
        r == pid && buckets == old(buckets)[priority := Remove(old(buckets)[priority], pid)] &&
        loc == old(loc)[pid := NULL]
      ensures old(loc)[pid] != priority ==>
        r == NULL && buckets == old(buckets) && loc == old(loc)
    {
      ShapeLoc(front[..], back[..], next[..], buckets, loc, pid);
      ghost var s := buckets[priority];
      assert front[..][priority] == Head(s) && Linked(next[..], s);
      var temp := front[priority];
      if temp == NULL {
        return NULL;
      }
      if temp == pid {
        r := PopFront(priority);
        assert Remove(s, pid) == s[1..];
        return;
      }
      var found;
      ghost var k;
      temp, found, k := FindPredecessor(pid, priority);
      if !found {
        return NULL;
      }
      RemoveFirstAt(s, k + 1, pid);
      r := UnlinkAfter(temp, priority, k + 1);
    }

    /**
     * The removal step of pq_pop_PCB: the element after `prev` (index k of
     * level `priority`) is unlinked, `prev` takes over its link, and the back
     * moves to `prev` when the element was the last one.
     */
    method UnlinkAfter(prev: int, priority: int, ghost k: int) returns (r: int)
      requires Valid()
      requires HIGH <= priority <= HIDDEN && 0 < k < |buckets[priority]|
      requires buckets[priority][k - 1] == prev
      modifies this, front, back, next
      ensures Valid()
      ensures r == old(buckets)[priority][k]
      ensures buckets == old(buckets)[priority := RemoveAt(old(buckets)[priority], k)]
      ensures loc == old(loc)[r := NULL]
    {
      ghost var f, b, n, q, l := front[..], back[..], next[..], buckets, loc;
      UnlinkPoints(f, b, n, q, l, priority, k);
      r := next[prev];
      next[prev] := next[r];
      next[r] := NULL;
      if back[priority] == r {
        back[priority] := prev;
      }
      buckets := buckets[priority := RemoveAt(buckets[priority], k)];
      loc := loc[r := NULL];
      UnlinkShape(f, b, n, q, l, priority, k, back[..], next[..], buckets, loc);
    }

    /** pq_pop: scan the levels HIGH..HIDDEN and pop the front of the first non-empty one. */
    method Pop() returns (pid: int)
      requires Valid()
      modifies this, front, back, next
      ensures Valid()
      ensures Members(old(buckets))
      ensures (pid, buckets) == PopHighest(old(buckets))
      ensures pid != NULL ==> loc == old(loc)[pid := NULL] && old(loc)[pid] != NULL
      ensures pid == NULL ==> loc == old(loc)
    {
      ShapeMembers(front[..], back[..], next[..], buckets, loc);
      ghost var q, l := buckets, loc;
      for priority := HIGH to HIDDEN + 1
        invariant forall k :: 0 <= k < priority ==> q[k] == []
        invariant buckets == q && unchanged(front, back, next)
      {
        if front[priority] != NULL {
          assert front[..][priority] == Head(q[priority]);
          FirstNonEmptyIs(q, priority);
          pid := PopFront(priority);
          assert q[priority][0] == pid && l[pid] == priority;
          return;
        }
        assert front[..][priority] == Head(q[priority]);
      }
      FirstNonEmptyIs(q, |q|);
      return NULL;
    }
  }

  lemma FirstNonEmptyIs(q: Buckets, p: int)
    requires 0 <= p <= |q|
    requires forall k :: 0 <= k < p ==> q[k] == []
    requires p < |q| ==> q[p] != []
    ensures FirstNonEmpty(q) == p
  {
  }

  /*
   * pq_pop_PCB as the source writes it, on the values of the three arrays.
   * The class above uses the corrected operation; the functions below keep
   * the source's two defects so that they can be exhibited.
   */

  /** The three arrays of a queue as values. */
  datatype Arrays = Arrays(front: seq<int>, back: seq<int>, next: seq<int>)

  /** The outcome of a call: a dereference of NULL, or the returned pid and the new arrays. */
  datatype PopOutcome = NullDeref | Popped(r: int, after: Arrays)

  predicate WellSized(l: Arrays) {
    |l.front| == NUM_PRIORITIES && |l.back| == NUM_PRIORITIES && |l.next| == NUM_PROCS
  }

  /**
   * The traversal loop of pq_pop_PCB: from temp, follow the links while
   * temp is a PCB whose next is neither NULL nor pid. The loop of the
   * source has no bound; `fuel` bounds it by the number of PCBs, which is
   * enough on every acyclic level (WalkStops).
   */
  function Walk(n: seq<int>, temp: int, pid: int, fuel: nat): int
    decreases fuel
  {
    if fuel == 0 || !(0 <= temp < |n|) || n[temp] == NULL || n[temp] == pid then temp
    else Walk(n, n[temp], pid, fuel - 1)
  }

  /** pq_pop_front on the arrays. */
  function PopFrontArrays(l: Arrays, p: int): PopOutcome
    requires WellSized(l) && 0 <= p < NUM_PRIORITIES
  {
    var pid := l.front[p];
    if pid == NULL then Popped(NULL, l)
    else if !(0 <= pid < NUM_PROCS) then NullDeref
    else
      var f := l.next[pid];
      Popped(pid, Arrays(l.front[p := f], if f == NULL then l.back[p := NULL] else l.back, l.next[pid := NULL]))
  }

  /**
   * pq_pop_PCB exactly as written: when level p is empty the loop stops at
   * NULL and the following `temp_proc->mp_next` dereferences it; when the
   * removed PCB is the last of its level, `back` keeps pointing at it.
   */
  function PopPcbAsWritten(l: Arrays, pid: int, p: int): PopOutcome
    requires WellSized(l) && 0 <= pid < NUM_PROCS && 0 <= p < NUM_PRIORITIES
  {
    var temp := l.front[p];
    if temp == pid then PopFrontArrays(l, p)
    else
      var t := Walk(l.next, temp, pid, NUM_PROCS);
      if !(0 <= t < NUM_PROCS) then NullDeref
      else if l.next[t] == NULL then Popped(NULL, l)
      else
        var found := l.next[t];
        if !(0 <= found < NUM_PROCS) then NullDeref
        else Popped(found, Arrays(l.front, l.back, l.next[t := l.next[found]][found := NULL]))
  }

  /** pq_push on the arrays. */
  function PushArrays(l: Arrays, pid: int, p: int): (r: Arrays)
    requires WellSized(l) && 0 <= pid < NUM_PROCS && 0 <= p < NUM_PRIORITIES
    requires l.front[p] != NULL ==> 0 <= l.back[p] < NUM_PROCS
    ensures WellSized(r) && r.back[p] == pid
  {
    if l.front[p] == NULL then Arrays(l.front[p := pid], l.back[p := pid], l.next)
    else Arrays(l.front, l.back[p := pid], l.next[l.back[p] := pid])
  }

  /** On an acyclic level the walk from s[j] stops in front of the first pid after j, or at the last element. */
  lemma {:induction false} WalkStops(n: seq<int>, s: seq<int>, j: int, m: int, pid: int, fuel: nat)
    requires Linked(n, s)
    requires 0 <= j < m <= |s|
    requires forall i :: j < i < m ==> s[i] != pid
    requires m < |s| ==> s[m] == pid
    requires fuel >= m - 1 - j
    ensures Walk(n, s[j], pid, fuel) == s[m - 1]
    decreases m - j
  {
    if j < m - 1 {
      assert n[s[j]] == s[j + 1] && s[j + 1] >= 0;
      WalkStops(n, s, j + 1, m, pid, fuel - 1);
    }
  }

  /** The source's pq_pop_PCB on a well-formed, non-empty level `s` that does not hold pid returns NULL and changes nothing. */
  lemma PopPcbAsWrittenAbsent(l: Arrays, s: seq<int>, pid: int, p: int)
    requires WellSized(l) && 0 <= pid < NUM_PROCS && 0 <= p < NUM_PRIORITIES
    requires Linked(l.next, s) && s != [] && l.front[p] == s[0] && pid !in s
    ensures PopPcbAsWritten(l, pid, p) == Popped(NULL, l)
  {
    LinkedBounded(l.next, s);
    WalkStops(l.next, s, 0, |s|, pid, NUM_PROCS);
  }

  /**
   * The source's pq_pop_PCB on the pid at index k > 0 of a well-formed
   * level `s`: it returns that pid and its predecessor takes over its link,
   * as in the corrected PQ.PopPcb, but `back` is left as it was.
   */
  lemma PopPcbAsWrittenFound(l: Arrays, s: seq<int>, p: int, k: int)
    requires WellSized(l) && 0 <= p < NUM_PRIORITIES
    requires Linked(l.next, s) && l.front[p] == Head(s) && 0 < k < |s|
    ensures var pid := s[k];
      0 <= pid < NUM_PROCS &&
      PopPcbAsWritten(l, pid, p) ==
        Popped(pid, Arrays(l.front, l.back, l.next[s[k - 1] := l.next[pid]][pid := NULL]))
  {
    var pid := s[k];
    LinkedDistinct(l.next, s);
    LinkedBounded(l.next, s);
    WalkStops(l.next, s, 0, k, pid, NUM_PROCS);
    assert l.next[s[k - 1]] == pid;
  }

  /**
   * Finding: removing the last PCB of a level of two or more leaves `back`
   * at the removed PCB, which then lies outside the level: the queue no
   * longer has the shape every other operation relies on.
   */
  lemma PopPcbAsWrittenStaleBack(f: seq<int>, b: seq<int>, n: seq<int>, q: Buckets, loc: seq<int>, p: int)
    requires Shape(f, b, n, q, loc)
    requires 0 <= p < NUM_PRIORITIES && |q[p]| >= 2
    ensures var pid := Last(q[p]);
      0 <= pid < NUM_PROCS &&
      PopPcbAsWritten(Arrays(f, b, n), pid, p).Popped? &&
      PopPcbAsWritten(Arrays(f, b, n), pid, p).after.back[p] == pid &&
      pid !in RemoveAt(q[p], |q[p]| - 1)
  {
    var s := q[p];
    var k := |s| - 1;
    assert Linked(n, s);
    LinkedDistinct(n, s);
    PopPcbAsWrittenFound(Arrays(f, b, n), s, p, k);
    assert b[p] == s[k];
  }

  /**
   * Finding, concretely: with PCBs 1 and 2 queued at level 0, pq_pop_PCB(2)
   * followed by pq_push(3) links 3 behind the removed PCB 2, so the level
   * reached from its front is [1] alone and PCB 3 is lost.
   */
  lemma StaleBackLosesPush()
    ensures var l0 := Arrays(seq(NUM_PRIORITIES, _ => NULL)[0 := 1], seq(NUM_PRIORITIES, _ => NULL)[0 := 2],
                            seq(NUM_PROCS, _ => NULL)[1 := 2]);
      var o := PopPcbAsWritten(l0, 2, 0);
      o.Popped? && o.r == 2 && o.after.back[0] == 2 &&
      var l2 := PushArrays(o.after, 3, 0);
      l2.front[0] == 1 && l2.next[1] == NULL && l2.back[0] == 3 &&
      forall s :: Linked(l2.next, s) && Head(s) == l2.front[0] ==> s == [1]
  {
    var l0 := Arrays(seq(NUM_PRIORITIES, _ => NULL)[0 := 1], seq(NUM_PRIORITIES, _ => NULL)[0 := 2],
                    seq(NUM_PROCS, _ => NULL)[1 := 2]);
    assert Walk(l0.next, 1, 2, NUM_PROCS) == 1;
    var o := PopPcbAsWritten(l0, 2, 0);
    var l2 := PushArrays(o.after, 3, 0);
    forall s | Linked(l2.next, s) && Head(s) == l2.front[0]
      ensures s == [1]
    {
      assert s[0] == 1;
      LinkedTail(l2.next, s);
      assert s[1..] == [];
    }
  }

  /** Finding: pq_pop_PCB on an empty level dereferences NULL, whichever pid is asked for. */
  lemma PopPcbEmptyLevelFaults(l: Arrays, pid: int, p: int)
    requires WellSized(l) && 0 <= pid < NUM_PROCS && 0 <= p < NUM_PRIORITIES
    requires l.front[p] == NULL
    ensures PopPcbAsWritten(l, pid, p) == NullDeref
  {
    assert Walk(l.next, NULL, pid, NUM_PROCS) == NULL;
  }
}

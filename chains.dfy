/**
 * Intrusive singly linked lists over an arena. Every queue of the kernel
 * (the priority-queue buckets, the free list of memory blocks, the
 * mailboxes and the delayed-delivery queue) threads its elements through a
 * `next` word stored in the element itself. Here the arena's link words are
 * a sequence indexed by element, NULL is -1, and the abstract content of a
 * list is the sequence of elements reached from its head.
 */
module Chains {

  /** `s` is the list reached by following `next` from s[0]; its last element links to NULL. */
  ghost predicate Linked(next: seq<int>, s: seq<int>) {
    && (forall i :: 0 <= i < |s| ==> 0 <= s[i] < |next|)
    && (forall i :: 0 <= i < |s| - 1 ==> next[s[i]] == s[i + 1])
    && (|s| > 0 ==> next[s[|s| - 1]] == -1)
  }

  ghost predicate Distinct(s: seq<int>) {
    forall i, j :: 0 <= i < j < |s| ==> s[i] != s[j]
  }

  /** The head pointer of a list with content `s`. */
  function Head(s: seq<int>): int {
    if s == [] then -1 else s[0]
  }

  /** The tail pointer of a list with content `s`. */
  function Last(s: seq<int>): int {
    if s == [] then -1 else s[|s| - 1]
  }

  /** `s` with its element at index k taken out. */
  function RemoveAt(s: seq<int>, k: int): (r: seq<int>)
    requires 0 <= k < |s|
    ensures |r| == |s| - 1
    ensures forall i :: 0 <= i < k ==> r[i] == s[i]
    ensures forall i :: k <= i < |r| ==> r[i] == s[i + 1]
  {
    s[..k] + s[k + 1..]
  }

  /** `s` with its first occurrence of x taken out (unchanged when x is absent). */
  function Remove(s: seq<int>, x: int): (r: seq<int>)
    ensures x !in s ==> r == s
  {
    if s == [] then []
    else if s[0] == x then s[1..] else [s[0]] + Remove(s[1..], x)
  }

  /** Removing x takes exactly one copy of x out of the multiset of elements, when there is one. */
  lemma {:induction false} RemoveContents(s: seq<int>, x: int)
    ensures multiset(Remove(s, x)) == multiset(s) - multiset{x}
  {
    if s != [] {
      var t := s[1..];
      assert s == [s[0]] + t;
      assert multiset(s) == multiset{s[0]} + multiset(t);
      if s[0] != x {
        RemoveContents(t, x);
        assert Remove(s, x) == [s[0]] + Remove(t, x);
        assert multiset(Remove(s, x)) == multiset{s[0]} + multiset(Remove(t, x));
      }
    }
  }

  lemma {:induction false} RemoveLength(s: seq<int>, x: int)
    ensures x in s ==> |Remove(s, x)| == |s| - 1
  {
    if s != [] && s[0] != x {
      RemoveLength(s[1..], x);
      assert x in s ==> x in s[1..];
    }
  }

  /** Following the links never revisits an element: a linked list is acyclic. */
  lemma {:induction false} LinkedDistinct(next: seq<int>, s: seq<int>)
    requires Linked(next, s)
    ensures Distinct(s)
  {
    forall i, j | 0 <= i < j < |s|
      ensures s[i] != s[j]
    {
      NoRepeatFrom(next, s, i, j);
    }
  }

  lemma {:induction false} NoRepeatFrom(next: seq<int>, s: seq<int>, i: int, j: int)
    requires Linked(next, s)
    requires 0 <= i < j < |s|
    ensures s[i] != s[j]
    decreases |s| - j
  {
    if j == |s| - 1 {
      // next[s[i]] is the list element s[i + 1], next[s[j]] is NULL
      assert next[s[i]] == s[i + 1] && s[i + 1] >= 0;
    } else {
      NoRepeatFrom(next, s, i + 1, j + 1);
    }
  }

  /** A link word that belongs to no element of `s` does not affect `s`. */
  lemma LinkedFrame(next: seq<int>, x: int, v: int, s: seq<int>)
    requires 0 <= x < |next|
    requires x !in s
    ensures Linked(next[x := v], s) <==> Linked(next, s)
  {
  }

  lemma LinkedTail(next: seq<int>, s: seq<int>)
    requires Linked(next, s) && s != []
    ensures Linked(next, s[1..])
    ensures Head(s[1..]) == next[s[0]]
  {
  }

  /** Pushing x at the back: the old last element now links to x. */
  lemma {:induction false} LinkedAppend(next: seq<int>, s: seq<int>, x: int)
    requires Linked(next, s)
    requires 0 <= x < |next| && next[x] == -1 && x !in s
    ensures s != [] ==> Linked(next[Last(s) := x], s + [x])
    ensures s == [] ==> Linked(next, s + [x])
  {
    if s != [] {
      var n := next[Last(s) := x];
      var t := s + [x];
      assert Last(s) != x;
      forall i | 0 <= i < |t| - 1
        ensures n[t[i]] == t[i + 1]
      {
        if i < |s| - 1 {
          LinkedDistinct(next, s);
          assert t[i] == s[i] && s[i] != Last(s);
        }
      }
    }
  }

  /** Pushing x at the front: x links to the old head. */
  lemma LinkedPrepend(next: seq<int>, s: seq<int>, x: int)
    requires Linked(next, s)
    requires 0 <= x < |next| && x !in s
    ensures Linked(next[x := Head(s)], [x] + s)
  {
    var n := next[x := Head(s)];
    var t := [x] + s;
    forall i | 0 <= i < |t| - 1
      ensures n[t[i]] == t[i + 1]
    {
      if i > 0 {
        assert t[i] == s[i - 1];
      }
    }
  }

  /** Unlinking the element at index k > 0: its predecessor takes over its link. */
  lemma {:induction false} LinkedUnlink(next: seq<int>, s: seq<int>, k: int)
    requires Linked(next, s)
    requires 0 < k < |s|
    ensures Linked(next[s[k - 1] := next[s[k]]][s[k] := -1], RemoveAt(s, k))
  {
    LinkedDistinct(next, s);
    var n := next[s[k - 1] := next[s[k]]][s[k] := -1];
    var t := RemoveAt(s, k);
    forall i | 0 <= i < |t| - 1
      ensures n[t[i]] == t[i + 1]
    {
      if i < k - 1 {
        assert t[i] == s[i] && t[i + 1] == s[i + 1];
        assert s[i] != s[k - 1] && s[i] != s[k];
      } else if i == k - 1 {
        assert t[i] == s[k - 1] && t[i + 1] == s[k + 1];
      } else {
        assert t[i] == s[i + 1] && t[i + 1] == s[i + 2];
        assert s[i + 1] != s[k - 1] && s[i + 1] != s[k];
      }
    }
    if |t| > 0 {
      if k == |s| - 1 {
        assert Last(t) == s[k - 1];
      } else {
        assert t[|t| - 1] == s[|s| - 1];
        assert s[|s| - 1] != s[k - 1] && s[|s| - 1] != s[k];
      }
    }
  }

  /** Inserting x after the element at index k - 1 (k >= 1). */
  lemma {:induction false} LinkedInsert(next: seq<int>, s: seq<int>, k: int, x: int)
    requires Linked(next, s)
    requires 0 < k <= |s|
    requires 0 <= x < |next| && x !in s
    ensures Linked(next[x := next[s[k - 1]]][s[k - 1] := x], s[..k] + [x] + s[k..])
  {
    LinkedDistinct(next, s);
    var n := next[x := next[s[k - 1]]][s[k - 1] := x];
    var t := s[..k] + [x] + s[k..];
    assert |t| == |s| + 1;
    forall i | 0 <= i < |t|
      ensures 0 <= t[i] < |n|
    {
      if i < k {
        assert t[i] == s[i];
      } else if i > k {
        assert t[i] == s[i - 1];
      }
    }
    forall i | 0 <= i < |t| - 1
      ensures n[t[i]] == t[i + 1]
    {
      if i < k - 1 {
        assert t[i] == s[i] && t[i + 1] == s[i + 1];
        assert s[i] != s[k - 1];
      } else if i == k - 1 {
        assert t[i] == s[k - 1] && t[i + 1] == x;
      } else if i == k {
        assert t[i] == x && t[i + 1] == s[k];
      } else {
        assert t[i] == s[i - 1] && t[i + 1] == s[i];
        assert s[i - 1] != s[k - 1];
      }
    }
    if k == |s| {
      assert t[|t| - 1] == x;
    } else {
      assert t[|t| - 1] == s[|s| - 1];
      assert s[|s| - 1] != s[k - 1];
    }
  }

  /** In a list without repetitions the removed element occurs nowhere else. */
  lemma DistinctRemoveAt(s: seq<int>, k: int)
    requires Distinct(s) && 0 <= k < |s|
    ensures s[k] !in RemoveAt(s, k)
  {
    var t := RemoveAt(s, k);
    forall i | 0 <= i < |t|
      ensures t[i] != s[k]
    {
      if i < k {
        assert t[i] == s[i];
      } else {
        assert t[i] == s[i + 1];
      }
    }
  }

  /** The tail of a list without repetitions does not hold its head. */
  lemma DistinctTail(s: seq<int>)
    requires Distinct(s) && s != []
    ensures s[0] !in s[1..]
  {
    forall i | 0 <= i < |s| - 1
      ensures s[1..][i] != s[0]
    {
      assert s[1..][i] == s[i + 1];
    }
  }

  /** A linked list visits each element of the arena at most once, so it is no longer than the arena. */
  lemma LinkedBounded(next: seq<int>, s: seq<int>)
    requires Linked(next, s)
    ensures |s| <= |next|
  {
    LinkedDistinct(next, s);
    DistinctBounded(s, |next|);
  }

  lemma {:induction false} DistinctBounded(s: seq<int>, n: nat)
    requires Distinct(s)
    requires forall i :: 0 <= i < |s| ==> 0 <= s[i] < n
    ensures |s| <= n
    decreases n
  {
    if n == 0 {
      assert Head(s) == -1;
    } else if k :| 0 <= k < |s| && s[k] == n - 1 {
      var t := RemoveAt(s, k);
      forall i | 0 <= i < |t|
        ensures 0 <= t[i] < n - 1
      {
        if i < k {
          assert t[i] == s[i] && s[i] != s[k];
        } else {
          assert t[i] == s[i + 1] && s[i + 1] != s[k];
        }
      }
      forall i, j | 0 <= i < j < |t|
        ensures t[i] != t[j]
      {
        if j < k {
        } else if i < k {
          assert t[j] == s[j + 1];
        } else {
          assert t[i] == s[i + 1] && t[j] == s[j + 1];
        }
      }
      DistinctBounded(t, n - 1);
    } else {
      forall i | 0 <= i < |s|
        ensures 0 <= s[i] < n - 1
      {
      }
      DistinctBounded(s, n - 1);
    }
  }

  /** When x first occurs at index k, removing x removes index k. */
  lemma {:induction false} RemoveFirstAt(s: seq<int>, k: int, x: int)
    requires 0 <= k < |s| && s[k] == x
    requires forall j :: 0 <= j < k ==> s[j] != x
    ensures Remove(s, x) == RemoveAt(s, k)
  {
    if k > 0 {
      var t := s[1..];
      RemoveFirstAt(t, k - 1, x);
      var r, u := Remove(s, x), RemoveAt(s, k);
      assert r == [s[0]] + RemoveAt(t, k - 1);
      forall i | 0 <= i < |r|
        ensures r[i] == u[i]
      {
        if i > 0 {
          assert r[i] == RemoveAt(t, k - 1)[i - 1];
        }
      }
    }
  }
}

/**
 * Python list idioms the parsers rely on: `zip`, which stops at the
 * shorter list, and removing repeats from a list.
 */
module Seqs {

  /** Python `list(zip(a, b))`. */
  function Zip<A, B>(a: seq<A>, b: seq<B>): (r: seq<(A, B)>)
    ensures |r| == if |a| <= |b| then |a| else |b|
    ensures forall i :: 0 <= i < |r| ==> r[i] == (a[i], b[i])
  {
    var n := if |a| <= |b| then |a| else |b|;
    seq(n, i requires 0 <= i < n => (a[i], b[i]))
  }

  /** A prefix one element longer. */
  lemma SliceStep<T>(s: seq<T>, k: nat)
    requires k < |s|
    ensures s[..k + 1] == s[..k] + [s[k]]
  {
  }

  /** Two adjacent slices make one. */
  lemma SliceJoin<T>(s: seq<T>, a: nat, b: nat, c: nat)
    requires a <= b <= c <= |s|
    ensures s[a..b] + s[b..c] == s[a..c]
  {
  }

  /** Appending to a joined sequence is appending to its second part. */
  lemma AppendAssoc<T>(a: seq<T>, b: seq<T>, c: seq<T>)
    ensures (a + b) + c == a + (b + c)
  {
  }

  /** Dropping the first element of a joined sequence drops it from the first part. */
  lemma DropFirst<T>(head: seq<T>, rest: seq<T>)
    requires |head| >= 1
    ensures (head + rest)[1..] == head[1..] + rest
  {
  }

  /** The middle part of a sequence joined from three is found again by slicing. */
  lemma MiddleSlice<T>(a: seq<T>, b: seq<T>, c: seq<T>)
    ensures (a + b + c)[|a|..|a| + |b|] == b
  {
  }

  /** A prefix followed by the next slice is the longer prefix. */
  lemma PrefixJoin<T>(s: seq<T>, a: nat, b: nat)
    requires a <= b <= |s|
    ensures s[..a] + s[a..b] == s[..b]
  {
  }

  /** A slice to the end is the slice up to the last element, then the last element. */
  lemma SliceToEnd<T>(head: seq<T>, s: seq<T>, a: nat)
    requires a < |s|
    ensures (head + s[a..|s| - 1]) + [s[|s| - 1]] == head + s[a..]
  {
    assert s[a..] == s[a..|s| - 1] + [s[|s| - 1]];
  }

  /** What a prefix holds, the whole holds. */
  lemma PrefixMembers<T>(s: seq<T>, k: nat)
    requires k <= |s|
    ensures forall x :: x in s[..k] ==> x in s
  {
    forall x | x in s[..k] ensures x in s {
      var i :| 0 <= i < k && s[..k][i] == x;
      assert s[i] == x;
    }
  }

  predicate NoRepeats<T(==)>(s: seq<T>)
  {
    forall i, j :: 0 <= i < j < |s| ==> s[i] != s[j]
  }

  /** The elements of `s` without repeats, each where it first occurs. */
  function Distinct<T(==,!new)>(s: seq<T>): (r: seq<T>)
    ensures forall x :: x in r <==> x in s
    ensures NoRepeats(r)
    ensures |r| <= |s|
  {
    if |s| == 0 then []
    else
      var front := s[..|s| - 1];
      var last := s[|s| - 1];
      assert s == front + [last];
      var d := Distinct(front);
      if last in d then d else d + [last]
  }

  /** A list without repeats is its own repeat-free version. */
  lemma {:induction false} DistinctOfNoRepeats<T(!new)>(s: seq<T>)
    requires NoRepeats(s)
    ensures Distinct(s) == s
  {
    if |s| > 0 {
      var front := s[..|s| - 1];
      assert NoRepeats(front);
      DistinctOfNoRepeats(front);
      assert s[|s| - 1] !in front;
      assert s == front + [s[|s| - 1]];
    }
  }

  /** An element that occurs at two positions occurs at least twice in the multiset. */
  lemma RepeatCounted<T>(s: seq<T>, i: nat, j: nat)
    requires i < j < |s| && s[i] == s[j]
    ensures multiset(s)[s[i]] >= 2
  {
    assert s == s[..i] + [s[i]] + s[i + 1..j] + [s[j]] + s[j + 1..];
  }

  /** A list without repeats holds each element at most once. */
  lemma {:induction false} NoRepeatsCounted<T>(s: seq<T>, x: T)
    requires NoRepeats(s)
    ensures multiset(s)[x] <= 1
  {
    if |s| > 0 {
      var front := s[..|s| - 1];
      assert s == front + [s[|s| - 1]];
      assert NoRepeats(front);
      NoRepeatsCounted(front, x);
      if x == s[|s| - 1] {
        assert x !in front;
      }
    }
  }

  /** Reordering a list without repeats, as a sort does, leaves it without repeats. */
  lemma NoRepeatsPermutation<T>(a: seq<T>, b: seq<T>)
    requires NoRepeats(a) && multiset(a) == multiset(b)
    ensures NoRepeats(b)
  {
    forall i, j | 0 <= i < j < |b| ensures b[i] != b[j] {
      if b[i] == b[j] {
        RepeatCounted(b, i, j);
        NoRepeatsCounted(a, b[i]);
      }
    }
  }
}

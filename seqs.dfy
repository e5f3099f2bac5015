/** Sequence helpers shared by the models of the C# list loops. */
module Seqs {

  /** The elements of `s` that satisfy `keep`, in their original order
      (what a `foreach` loop that appends only the accepted items builds). */
  function Filter<T>(s: seq<T>, keep: T -> bool): seq<T>
  {
    if s == [] then [] else (if keep(s[0]) then [s[0]] else []) + Filter(s[1..], keep)
  }

  /** Filtering distributes over concatenation; this is what lets a loop
      append one element at a time. */
  /** Concatenation is associative. */
  lemma ConcatAssociative<T>(x: seq<T>, y: seq<T>, z: seq<T>)
    ensures x + (y + z) == (x + y) + z
  {
  }

  lemma {:induction false} FilterAppend<T>(a: seq<T>, b: seq<T>, keep: T -> bool)
    ensures Filter(a + b, keep) == Filter(a, keep) + Filter(b, keep)
  {
    if a == [] {
      assert a + b == b;
    } else {
      var head := if keep(a[0]) then [a[0]] else [];
      assert (a + b)[0] == a[0];
      assert (a + b)[1..] == a[1..] + b;
      FilterAppend(a[1..], b, keep);
      calc {
        Filter(a + b, keep);
        head + Filter(a[1..] + b, keep);
        head + (Filter(a[1..], keep) + Filter(b, keep));
        (head + Filter(a[1..], keep)) + Filter(b, keep);
      }
    }
  }

  /** Everything the filter returns satisfies the predicate, it is no longer
      than its input, and it keeps every element when all of them are accepted. */
  lemma {:induction false} FilterProperties<T>(s: seq<T>, keep: T -> bool)
    ensures |Filter(s, keep)| <= |s|
    ensures forall i :: 0 <= i < |Filter(s, keep)| ==> keep(Filter(s, keep)[i])
    ensures (forall i :: 0 <= i < |s| ==> keep(s[i])) ==> Filter(s, keep) == s
  {
    if s != [] {
      FilterProperties(s[1..], keep);
      var rest := Filter(s[1..], keep);
      var head := if keep(s[0]) then [s[0]] else [];
      assert Filter(s, keep) == head + rest;
      forall i | 0 <= i < |Filter(s, keep)|
        ensures keep(Filter(s, keep)[i])
      {
        if i < |head| {
        } else {
          assert Filter(s, keep)[i] == rest[i - |head|];
        }
      }
      if forall i :: 0 <= i < |s| ==> keep(s[i]) {
        assert forall i :: 0 <= i < |s[1..]| ==> keep(s[1..][i]);
        assert s == [s[0]] + s[1..];
      }
    }
  }

  /** `s` occurs in `t` as a subsequence: the elements of `s` appear in `t`
      in the same order (greedy matching from the left). */
  ghost predicate IsSubsequence<T>(s: seq<T>, t: seq<T>)
    decreases |t|
  {
    if s == [] then true
    else if t == [] then false
    else if s[0] == t[0] then IsSubsequence(s[1..], t[1..])
    else IsSubsequence(s, t[1..])
  }

  /** The filter keeps elements in their original order. */
  lemma {:induction false} FilterIsSubsequence<T>(s: seq<T>, keep: T -> bool)
    ensures IsSubsequence(Filter(s, keep), s)
  {
    if s != [] {
      FilterIsSubsequence(s[1..], keep);
      if !keep(s[0]) {
        var rest := Filter(s[1..], keep);
        assert Filter(s, keep) == rest;
        SubsequenceSkip(rest, s[0], s[1..]);
      }
    }
  }

  /** Prepending an element to the longer sequence keeps a subsequence one. */
  lemma {:induction false} SubsequenceSkip<T>(s: seq<T>, x: T, t: seq<T>)
    requires IsSubsequence(s, t)
    ensures IsSubsequence(s, [x] + t)
    decreases |t|, 1
  {
    assert ([x] + t)[1..] == t;
    if s != [] && s[0] == x {
      assert t != [];
      if s[0] == t[0] {
        SubsequenceSkip(s[1..], t[0], t[1..]);
        assert [t[0]] + t[1..] == t;
      } else {
        SubsequenceTail(s, t);
      }
    }
  }

  /** Dropping the head of a subsequence keeps it a subsequence. */
  lemma {:induction false} SubsequenceTail<T>(s: seq<T>, t: seq<T>)
    requires s != [] && IsSubsequence(s, t)
    ensures IsSubsequence(s[1..], t)
    decreases |t|, 0
  {
    if s[0] == t[0] {
      if s[1..] != [] {
        SubsequenceSkip(s[1..], t[0], t[1..]);
        assert [t[0]] + t[1..] == t;
      }
    } else {
      SubsequenceTail(s, t[1..]);
      if s[1..] != [] {
        SubsequenceSkip(s[1..], t[0], t[1..]);
        assert [t[0]] + t[1..] == t;
      }
    }
  }

  /** Every prefix of a subsequence is a subsequence. */
  lemma {:induction false} SubsequencePrefix<T>(s: seq<T>, t: seq<T>, k: nat)
    requires IsSubsequence(s, t) && k <= |s|
    ensures IsSubsequence(s[..k], t)
    decreases |t|
  {
    if k > 0 {
      assert s[..k][0] == s[0];
      if s[0] == t[0] {
        SubsequencePrefix(s[1..], t[1..], k - 1);
        assert s[..k][1..] == s[1..][..k - 1];
      } else {
        SubsequencePrefix(s, t[1..], k);
      }
    }
  }

  /** The sequence [0, 1, ..., n-1]. */
  function Iota(n: nat): (s: seq<int>)
    ensures |s| == n
    ensures forall i :: 0 <= i < n ==> s[i] == i
  {
    if n == 0 then [] else Iota(n - 1) + [n - 1]
  }

  /** No value occurs twice. */
  predicate Distinct<T(==)>(s: seq<T>)
  {
    forall i, j :: 0 <= i < j < |s| ==> s[i] != s[j]
  }

  /** Every element lies in [0, n). */
  predicate AllBelow(s: seq<int>, n: int)
  {
    forall i :: 0 <= i < |s| ==> 0 <= s[i] < n
  }

  function Min(a: int, b: int): int
  {
    if a <= b then a else b
  }
}

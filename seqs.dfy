/** Order-preserving selection over sequences: the `Array.prototype.filter`
    that the navigation menu, the slot list, the discovery map and the skill
    editor all use. Its properties are lemmas, so that filtering a constant
    table stays cheap to compute. */
module Seqs {

  /** `sub` can be obtained from `s` by deleting elements, keeping the order. */
  ghost predicate IsSubsequence<T>(sub: seq<T>, s: seq<T>)
    decreases |s|
  {
    if sub == [] then true
    else if s == [] then false
    else if sub[0] == s[0] then IsSubsequence(sub[1..], s[1..])
    else IsSubsequence(sub, s[1..])
  }

  /** The elements of `s` that satisfy `keep`, in their original order. */
  function Filter<T>(s: seq<T>, keep: T -> bool): seq<T>
  {
    if s == [] then []
    else
      var rest := Filter(s[1..], keep);
      if keep(s[0]) then [s[0]] + rest else rest
  }

  /** One element at the front is kept or dropped on its own merits. */
  lemma FilterCons<T>(x: T, s: seq<T>, keep: T -> bool)
    ensures Filter([x] + s, keep) == (if keep(x) then [x] else []) + Filter(s, keep)
  {
    assert ([x] + s)[1..] == s;
  }

  /** An element is in the result exactly when it is in the input and kept. */
  lemma {:induction false} FilterMembers<T>(s: seq<T>, keep: T -> bool)
    ensures |Filter(s, keep)| <= |s|
    ensures forall x :: x in Filter(s, keep) <==> x in s && keep(x)
  {
    if s != [] {
      FilterMembers(s[1..], keep);
      assert s == [s[0]] + s[1..];
    }
  }

  /** The result keeps the input's order: it is a subsequence of it. */
  lemma {:induction false} FilterSubsequence<T>(s: seq<T>, keep: T -> bool)
    ensures IsSubsequence(Filter(s, keep), s)
  {
    if s != [] {
      FilterSubsequence(s[1..], keep);
      var rest := Filter(s[1..], keep);
      if keep(s[0]) {
        assert Filter(s, keep)[1..] == rest;
      } else {
        SubsequenceSkip(rest, s);
      }
    }
  }

  /** A subsequence of `s[1..]` is a subsequence of `s`. */
  lemma {:induction false} SubsequenceSkip<T>(sub: seq<T>, s: seq<T>)
    requires s != []
    requires IsSubsequence(sub, s[1..])
    ensures IsSubsequence(sub, s)
    decreases |sub| + |s|
  {
    if sub != [] && sub[0] == s[0] {
      SubsequenceTail(sub, s[1..]);
    }
  }

  /** Dropping the first element of a subsequence leaves a subsequence. */
  lemma {:induction false} SubsequenceTail<T>(sub: seq<T>, s: seq<T>)
    requires sub != []
    requires IsSubsequence(sub, s)
    ensures IsSubsequence(sub[1..], s)
    decreases |sub| + |s|
  {
    if sub[0] == s[0] {
      SubsequenceSkip(sub[1..], s);
    } else {
      SubsequenceTail(sub, s[1..]);
      SubsequenceSkip(sub[1..], s);
    }
  }

  /** When every element is kept the input comes back unchanged, and
      conversely. */
  lemma {:induction false} FilterKeepsAll<T>(s: seq<T>, keep: T -> bool)
    ensures Filter(s, keep) == s <==> forall i :: 0 <= i < |s| ==> keep(s[i])
  {
    if s != [] {
      FilterKeepsAll(s[1..], keep);
      FilterMembers(s[1..], keep);
      assert forall i :: 1 <= i < |s| ==> s[i] == s[1..][i - 1];
      if !keep(s[0]) {
        assert |Filter(s, keep)| < |s|;
      }
    }
  }

  /** Every kept value is kept with all its copies, and every dropped value
      loses all of them. */
  lemma {:induction false} FilterMultiplicity<T>(s: seq<T>, keep: T -> bool, x: T)
    ensures multiset(Filter(s, keep))[x] == if keep(x) then multiset(s)[x] else 0
  {
    if s != [] {
      FilterMultiplicity(s[1..], keep, x);
      assert s == [s[0]] + s[1..];
    }
  }

  /** Filtering distributes over concatenation. */
  lemma {:induction false} FilterAppend<T>(a: seq<T>, b: seq<T>, keep: T -> bool)
    ensures Filter(a + b, keep) == Filter(a, keep) + Filter(b, keep)
  {
    if a == [] {
      assert a + b == b;
    } else {
      assert (a + b)[1..] == a[1..] + b;
      FilterAppend(a[1..], b, keep);
    }
  }

  /** What the filter keeps of one element. */
  function Pick<T>(x: T, keep: T -> bool): seq<T>
  {
    if keep(x) then [x] else []
  }

  /** The filter over a three-element list, element by element. */
  lemma FilterThree<T>(a0: T, a1: T, a2: T, keep: T -> bool)
    ensures Filter([a0, a1, a2], keep) == Pick(a0, keep) + Pick(a1, keep) + Pick(a2, keep)
  {
    assert [a2][1..] == [];
    assert Filter([a2], keep) == Pick(a2, keep);
    assert [a1, a2][1..] == [a2];
    assert Filter([a1, a2], keep) == Pick(a1, keep) + Pick(a2, keep);
    assert [a0, a1, a2][1..] == [a1, a2];
  }
}

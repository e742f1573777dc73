/**
 This module defines order-preserving selection on sequences, the operation
 that JavaScript's `Array.prototype.filter` performs, together with the
 subsequence relation that says what "order-preserving" means.
 */
module Seqs {

  /** The elements of `s` for which `keep` holds, in their original order. */
  function Filter<T>(s: seq<T>, keep: T -> bool): (r: seq<T>)
    ensures |r| <= |s|
  {
    if s == [] then [] else (if keep(s[0]) then [s[0]] else []) + Filter(s[1..], keep)
  }

  /** `sub` can be obtained from `full` by deleting elements, keeping the order of the rest. */
  ghost predicate IsSubsequence<T>(sub: seq<T>, full: seq<T>)
    decreases |full|
  {
    sub == [] ||
    (full != [] &&
     ((sub[0] == full[0] && IsSubsequence(sub[1..], full[1..])) || IsSubsequence(sub, full[1..])))
  }

  /** A subsequence never holds an element more often than the sequence it is taken from. */
  lemma {:induction false} SubsequenceMultiset<T>(sub: seq<T>, full: seq<T>)
    requires IsSubsequence(sub, full)
    ensures multiset(sub) <= multiset(full)
    decreases |full|
  {
    if sub == [] {
    } else {
      assert full == [full[0]] + full[1..];
      if sub[0] == full[0] && IsSubsequence(sub[1..], full[1..]) {
        SubsequenceMultiset(sub[1..], full[1..]);
        assert sub == [sub[0]] + sub[1..];
      } else {
        SubsequenceMultiset(sub, full[1..]);
      }
    }
  }

  /** The filtered sequence is an order-preserving subsequence of the input. */
  lemma {:induction false} FilterIsSubsequence<T>(s: seq<T>, keep: T -> bool)
    ensures IsSubsequence(Filter(s, keep), s)
  {
    if s != [] {
      FilterIsSubsequence(s[1..], keep);
      var r := Filter(s, keep);
      if keep(s[0]) {
        assert r[0] == s[0] && r[1..] == Filter(s[1..], keep);
      } else {
        assert r == Filter(s[1..], keep);
      }
    }
  }

  /** Every occurrence of a kept element survives; no occurrence of a dropped one does. */
  lemma {:induction false} FilterCount<T>(s: seq<T>, keep: T -> bool, x: T)
    ensures multiset(Filter(s, keep))[x] == if keep(x) then multiset(s)[x] else 0
    ensures x in Filter(s, keep) <==> x in s && keep(x)
  {
    if s != [] {
      FilterCount(s[1..], keep, x);
      assert s == [s[0]] + s[1..];
      assert multiset(s) == multiset([s[0]]) + multiset(s[1..]);
      var head := if keep(s[0]) then [s[0]] else [];
      assert multiset(Filter(s, keep)) == multiset(head) + multiset(Filter(s[1..], keep));
    }
  }

  /**
   The two facts above determine the result: the only subsequence of `s` that holds
   exactly the kept occurrences is `Filter(s, keep)`.
   */
  lemma {:induction false} FilterUnique<T>(s: seq<T>, keep: T -> bool, r: seq<T>)
    requires IsSubsequence(r, s)
    requires forall x :: multiset(r)[x] == if keep(x) then multiset(s)[x] else 0
    ensures r == Filter(s, keep)
  {
    if s == [] {
      assert multiset(r) == multiset{};
    } else {
      var x, rest := s[0], s[1..];
      assert s == [x] + rest;
      assert multiset(s) == multiset([x]) + multiset(rest);
      if keep(x) {
        if r != [] && r[0] == x && IsSubsequence(r[1..], rest) {
          assert r == [x] + r[1..];
          assert multiset(r) == multiset([x]) + multiset(r[1..]);
          FilterUnique(rest, keep, r[1..]);
        } else {
          assert IsSubsequence(r, rest);
          SubsequenceMultiset(r, rest);
          assert false;
        }
      } else {
        assert x !in r by {
          assert multiset(r)[x] == 0;
        }
        assert IsSubsequence(r, rest);
        FilterUnique(rest, keep, r);
      }
    }
  }

  /** Filtering depends only on the values `keep` takes on the elements. */
  lemma {:induction false} FilterCongruent<T>(s: seq<T>, p: T -> bool, q: T -> bool)
    requires forall x :: x in s ==> p(x) == q(x)
    ensures Filter(s, p) == Filter(s, q)
  {
    if s != [] {
      assert forall x :: x in s[1..] ==> x in s;
      FilterCongruent(s[1..], p, q);
    }
  }

  /** A filter that keeps every element returns its input. */
  lemma {:induction false} FilterKeepsAll<T>(s: seq<T>, keep: T -> bool)
    requires forall x :: x in s ==> keep(x)
    ensures Filter(s, keep) == s
  {
    if s != [] {
      assert forall x :: x in s[1..] ==> x in s;
      FilterKeepsAll(s[1..], keep);
      assert s == [s[0]] + s[1..];
    }
  }

  /** Filtering distributes over concatenation. */
  lemma {:induction false} FilterAppend<T>(s: seq<T>, t: seq<T>, keep: T -> bool)
    ensures Filter(s + t, keep) == Filter(s, keep) + Filter(t, keep)
  {
    if s != [] {
      assert (s + t)[0] == s[0] && (s + t)[1..] == s[1..] + t;
      FilterAppend(s[1..], t, keep);
    } else {
      assert s + t == t;
    }
  }

  /** Filtering twice with the same test is filtering once. */
  lemma {:induction false} FilterIdempotent<T>(s: seq<T>, keep: T -> bool)
    ensures Filter(Filter(s, keep), keep) == Filter(s, keep)
  {
    if s != [] {
      FilterIdempotent(s[1..], keep);
      var head := if keep(s[0]) then [s[0]] else [];
      FilterAppend(head, Filter(s[1..], keep), keep);
      if keep(s[0]) {
        assert Filter(head, keep) == head by {
          assert head[1..] == [];
        }
      }
    }
  }

  /** A test and its negation split a sequence into two parts that together hold every element. */
  lemma {:induction false} FilterPartition<T>(s: seq<T>, p: T -> bool, q: T -> bool)
    requires forall x :: x in s ==> q(x) == !p(x)
    ensures |Filter(s, p)| + |Filter(s, q)| == |s|
    ensures multiset(Filter(s, p)) + multiset(Filter(s, q)) == multiset(s)
  {
    if s != [] {
      assert forall x :: x in s[1..] ==> x in s;
      FilterPartition(s[1..], p, q);
      assert s == [s[0]] + s[1..];
      assert multiset(s) == multiset([s[0]]) + multiset(s[1..]);
      var hp := if p(s[0]) then [s[0]] else [];
      var hq := if q(s[0]) then [s[0]] else [];
      assert multiset(Filter(s, p)) == multiset(hp) + multiset(Filter(s[1..], p));
      assert multiset(Filter(s, q)) == multiset(hq) + multiset(Filter(s[1..], q));
    }
  }
}

/** `Array.prototype.filter` and the facts the list pages rely on. */
module Seqs {

  /** Keeps, in order, the elements that satisfy `p`. */
  function Filter<T>(p: T -> bool, s: seq<T>): (r: seq<T>)
    ensures |r| <= |s|
    ensures forall i :: 0 <= i < |r| ==> p(r[i])
  {
    if s == [] then [] else Keep(p, s[0]) + Filter(p, s[1..])
  }

  /** `r` is `s` with some elements dropped and the rest in their order. */
  predicate IsSubsequence<T(==)>(r: seq<T>, s: seq<T>)
    decreases |s|
  {
    r == [] || (s != [] && ((r[0] == s[0] && IsSubsequence(r[1..], s[1..])) || IsSubsequence(r, s[1..])))
  }

  lemma {:induction false} FilterIsSubsequence<T>(p: T -> bool, s: seq<T>)
    ensures IsSubsequence(Filter(p, s), s)
    decreases |s|
  {
    if s != [] {
      FilterIsSubsequence(p, s[1..]);
      var r := Filter(p, s);
      if p(s[0]) {
        assert r[0] == s[0] && r[1..] == Filter(p, s[1..]);
      } else {
        assert r == Filter(p, s[1..]);
      }
    }
  }

  /** An element is kept exactly when it is in the input and satisfies `p`. */
  lemma {:induction false} FilterMembers<T>(p: T -> bool, s: seq<T>, x: T)
    ensures x in Filter(p, s) <==> x in s && p(x)
    decreases |s|
  {
    if s != [] {
      FilterMembers(p, s[1..], x);
      assert s == [s[0]] + s[1..];
    }
  }

  /** When every element passes, the filter returns the whole list. */
  lemma {:induction false} FilterKeepsAll<T>(p: T -> bool, s: seq<T>)
    requires forall i :: 0 <= i < |s| ==> p(s[i])
    ensures Filter(p, s) == s
    decreases |s|
  {
    if s != [] {
      FilterKeepsAll(p, s[1..]);
    }
  }

  /** Predicates that agree on the elements give the same result. */
  lemma {:induction false} FilterCongruent<T>(p: T -> bool, q: T -> bool, s: seq<T>)
    requires forall x :: x in s ==> p(x) == q(x)
    ensures Filter(p, s) == Filter(q, s)
    decreases |s|
  {
    if s != [] {
      FilterCongruent(p, q, s[1..]);
    }
  }

  /** No element occurs twice. */
  ghost predicate Distinct<T>(s: seq<T>) {
    forall i, j :: 0 <= i < j < |s| ==> s[i] != s[j]
  }

  /** Filtering a list without repeats gives a list without repeats. */
  lemma {:induction false} FilterKeepsDistinct<T>(p: T -> bool, s: seq<T>)
    requires Distinct(s)
    ensures Distinct(Filter(p, s))
    decreases |s|
  {
    if s != [] {
      var t := Filter(p, s[1..]);
      assert Distinct(s[1..]) by {
        forall i, j | 0 <= i < j < |s[1..]| ensures s[1..][i] != s[1..][j] {
          assert s[1..][i] == s[i + 1] && s[1..][j] == s[j + 1];
        }
      }
      FilterKeepsDistinct(p, s[1..]);
      if p(s[0]) {
        FilterMembers(p, s[1..], s[0]);
        assert s[0] !in s[1..] by {
          forall k | 0 <= k < |s[1..]| ensures s[1..][k] != s[0] {
            assert s[1..][k] == s[k + 1];
          }
        }
        var r := [s[0]] + t;
        assert Filter(p, s) == r;
        forall i, j | 0 <= i < j < |r| ensures r[i] != r[j] {
          if i == 0 {
            assert r[j] == t[j - 1];
          } else {
            assert r[i] == t[i - 1] && r[j] == t[j - 1];
          }
        }
      }
    }
  }

  /** `[x]` when `x` passes, otherwise nothing. */
  function Keep<T>(p: T -> bool, x: T): seq<T> {
    if p(x) then [x] else []
  }

  /** A filter over a list of seven whose first and last three elements
      pass: the first, the survivors of the middle three in order, the last
      three. */
  lemma {:induction false} FilterSeven<T>(p: T -> bool, s: seq<T>)
    requires |s| == 7 && p(s[0]) && p(s[4]) && p(s[5]) && p(s[6])
    ensures Filter(p, s) == [s[0]] + (Keep(p, s[1]) + (Keep(p, s[2]) + (Keep(p, s[3]) + [s[4], s[5], s[6]])))
  {
    var tail := [s[4], s[5], s[6]];
    FilterStep(p, s, 6);
    assert s[7..] == [];
    FilterStep(p, s, 5);
    FilterStep(p, s, 4);
    assert Filter(p, s[4..]) == tail;
    FilterStep(p, s, 3);
    FilterStep(p, s, 2);
    FilterStep(p, s, 1);
    FilterStep(p, s, 0);
    assert s[0..] == s;
  }

  /** One step of a filter, from position `k` of `s`. */
  lemma FilterStep<T>(p: T -> bool, s: seq<T>, k: nat)
    requires k < |s|
    ensures Filter(p, s[k..]) == Keep(p, s[k]) + Filter(p, s[k + 1..])
  {
    assert s[k..][1..] == s[k + 1..];
  }

  /** Filtering by a conjunction is filtering by one conjunct, then the other. */
  lemma {:induction false} FilterConjunction<T>(p: T -> bool, q: T -> bool, both: T -> bool, s: seq<T>)
    requires forall x :: both(x) == (p(x) && q(x))
    ensures Filter(both, s) == Filter(q, Filter(p, s))
    decreases |s|
  {
    if s != [] {
      FilterConjunction(p, q, both, s[1..]);
      if p(s[0]) {
        var kept := [s[0]] + Filter(p, s[1..]);
        assert Filter(p, s) == kept;
        assert kept[0] == s[0] && kept[1..] == Filter(p, s[1..]);
        assert Filter(q, kept) == (if q(s[0]) then [s[0]] else []) + Filter(q, Filter(p, s[1..]));
      } else {
        assert Filter(p, s) == Filter(p, s[1..]);
      }
    }
  }
}

/** The search and status predicates shared by the three list pages:
    `a.toLowerCase().includes(b.toLowerCase())` and
    `statusFilter ? status === statusFilter : true`. */
module Search {
  import opened Types

  /** `toLowerCase` on one character, over ASCII letters. */
  function LowerChar(c: char): char {
    if 'A' <= c <= 'Z' then (c as int + 32) as char else c
  }

  /** `toLowerCase` on a string: every character folded, nothing else changed. */
  function Lower(s: string): (r: string)
    ensures |r| == |s|
    ensures forall i :: 0 <= i < |s| ==> r[i] == LowerChar(s[i])
  {
    seq(|s|, i requires 0 <= i < |s| => LowerChar(s[i]))
  }

  /** Folding twice is folding once. */
  lemma LowerIdempotent(s: string)
    ensures Lower(Lower(s)) == Lower(s)
  {
    assert forall i :: 0 <= i < |s| ==> LowerChar(LowerChar(s[i])) == LowerChar(s[i]);
  }

  /** Folding commutes with taking a slice. */
  lemma LowerSlice(s: string, i: int, j: int)
    requires 0 <= i <= j <= |s|
    ensures Lower(s[i..j]) == Lower(s)[i..j]
  {
    forall k | 0 <= k < j - i
      ensures Lower(s[i..j])[k] == Lower(s)[i..j][k]
    {
    }
  }

  /** `needle` sits in `hay` starting at position `i`. */
  ghost predicate OccursAt(hay: string, needle: string, i: int) {
    0 <= i && i + |needle| <= |hay| && hay[i..i + |needle|] == needle
  }

  /** `hay.includes(needle)`: try the needle at the front, then move on. */
  predicate Includes(hay: string, needle: string)
    ensures Includes(hay, needle) ==> |needle| <= |hay|
    ensures needle == [] ==> Includes(hay, needle)
    decreases |hay|
  {
    (|needle| <= |hay| && hay[..|needle|] == needle) || (hay != [] && Includes(hay[1..], needle))
  }

  /** `includes` holds exactly when the needle occurs at some position. */
  lemma {:induction false} IncludesIff(hay: string, needle: string)
    ensures Includes(hay, needle) <==> exists i :: OccursAt(hay, needle, i)
    decreases |hay|
  {
    if |needle| <= |hay| && hay[..|needle|] == needle {
      assert OccursAt(hay, needle, 0);
    } else if hay != [] {
      IncludesIff(hay[1..], needle);
      if j :| OccursAt(hay[1..], needle, j) {
        assert hay[1..][j..j + |needle|] == hay[j + 1..j + 1 + |needle|];
        assert OccursAt(hay, needle, j + 1);
      }
      if i :| OccursAt(hay, needle, i) {
        assert i != 0;
        assert hay[i..i + |needle|] == hay[1..][i - 1..i - 1 + |needle|];
        assert OccursAt(hay[1..], needle, i - 1);
      }
    } else {
      assert |needle| > 0;
    }
  }

  /** The search rule of every list page: case-insensitive substring. */
  predicate Matches(field: string, term: string)
    ensures Matches(field, term) ==> |term| <= |field|
    ensures term == "" ==> Matches(field, term)
  {
    Includes(Lower(field), Lower(term))
  }

  /** An empty search term matches every field. */
  lemma EmptyTermMatches(field: string)
    ensures Matches(field, "")
  {
  }

  /** A term that occurs verbatim in a field matches it, whatever its case. */
  lemma SubstringMatches(field: string, term: string, i: int)
    requires OccursAt(field, term, i)
    ensures Matches(field, term)
  {
    LowerSlice(field, i, i + |term|);
    assert OccursAt(Lower(field), Lower(term), i);
    IncludesIff(Lower(field), Lower(term));
  }

  /** Folding the term first does not change the outcome of a search. */
  lemma MatchesIgnoresTermCase(field: string, term: string)
    ensures Matches(field, Lower(term)) == Matches(field, term)
  {
    LowerIdempotent(term);
  }

  /** `statusFilter ? name === statusFilter : true`: no filter, or the empty
      (falsy) string, passes every status. */
  predicate StatusPasses(statusFilter: Option<string>, name: string)
    ensures statusFilter.None? || statusFilter == Some("") ==> StatusPasses(statusFilter, name)
    ensures StatusPasses(statusFilter, name) && statusFilter.Some? && statusFilter.value != "" ==> name == statusFilter.value
  {
    statusFilter.None? || statusFilter.value == "" || name == statusFilter.value
  }
}

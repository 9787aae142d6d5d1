/** Option, the value Python writes as `None` or an object. */
module Optional {

  datatype Option<T> = None | Some(value: T)
}

/**
 * Python's `list(filter(p, s))` and the facts about it that the track
 * heuristics rely on: what the filtered list contains, that it keeps the
 * order of the original, and that its first element is the first element
 * of the original that passes the test.
 */
module Lists {

  /** `list(filter(p, s))`: the elements of `s` that pass `p`, in order. */
  function Filter<T>(s: seq<T>, p: T -> bool): (r: seq<T>)
    ensures |r| <= |s|
    ensures forall i :: 0 <= i < |r| ==> r[i] in s && p(r[i])
    ensures forall i :: 0 <= i < |s| && p(s[i]) ==> s[i] in r
  {
    if s == [] then []
    else if p(s[0]) then [s[0]] + Filter(s[1..], p)
    else Filter(s[1..], p)
  }

  /** Every element passing `p` is kept as often as it occurs, and no other element is kept. */
  lemma {:induction false} FilterCounts<T>(s: seq<T>, p: T -> bool)
    ensures forall x :: multiset(Filter(s, p))[x] == if p(x) then multiset(s)[x] else 0
  {
    if s != [] {
      FilterCounts(s[1..], p);
      assert s == [s[0]] + s[1..];
      assert multiset(s) == multiset([s[0]]) + multiset(s[1..]);
    }
  }

  /** `r` can be obtained from `s` by deleting elements; the order is kept. */
  predicate IsSubsequence<T(==)>(r: seq<T>, s: seq<T>)
    decreases |s|
  {
    if r == [] then true
    else if s == [] then false
    else (r[0] == s[0] && IsSubsequence(r[1..], s[1..])) || IsSubsequence(r, s[1..])
  }

  /** `k` is the position of the first element of `s` that passes `p`. */
  ghost predicate IsFirst<T>(s: seq<T>, p: T -> bool, k: int)
  {
    0 <= k < |s| && p(s[k]) && forall j :: 0 <= j < k ==> !p(s[j])
  }

  lemma {:induction false} FilterIsSubsequence<T>(s: seq<T>, p: T -> bool)
    ensures IsSubsequence(Filter(s, p), s)
  {
    if s != [] {
      FilterIsSubsequence(s[1..], p);
    }
  }

  /**
   * The filtered list is empty exactly when nothing passes, and otherwise
   * its head is the first element of `s` that passes.
   */
  lemma {:induction false} FilterHead<T>(s: seq<T>, p: T -> bool)
    ensures Filter(s, p) == [] <==> forall i :: 0 <= i < |s| ==> !p(s[i])
    ensures Filter(s, p) != [] ==> exists k :: IsFirst(s, p, k) && s[k] == Filter(s, p)[0]
  {
    if s != [] {
      FilterHead(s[1..], p);
      if p(s[0]) {
        assert IsFirst(s, p, 0);
      } else {
        assert forall i :: 1 <= i < |s| ==> s[i] == s[1..][i - 1];
        if Filter(s[1..], p) != [] {
          var k :| IsFirst(s[1..], p, k) && s[1..][k] == Filter(s[1..], p)[0];
          assert IsFirst(s, p, k + 1);
        }
      }
    }
  }

  /** Filtering a list extended by one element, as a loop that appends does. */
  lemma {:induction false} FilterSnoc<T>(s: seq<T>, x: T, p: T -> bool)
    ensures Filter(s + [x], p) == Filter(s, p) + (if p(x) then [x] else [])
  {
    if s == [] {
      assert s + [x] == [x];
    } else {
      assert (s + [x])[1..] == s[1..] + [x];
      FilterSnoc(s[1..], x, p);
    }
  }
}

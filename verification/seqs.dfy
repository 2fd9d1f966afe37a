/** Sequence helpers shared by the pages: JavaScript's `Array.prototype.filter`,
    both with an element predicate and with an index test, and duplicate-freedom. */
module Seqs {

  /** `s.filter(p)`: the elements of `s` that satisfy `p`, in their original order. */
  function Filter<T>(s: seq<T>, p: T -> bool): (r: seq<T>)
    ensures |r| <= |s|
    ensures forall i :: 0 <= i < |r| ==> p(r[i])
  {
    if |s| == 0 then [] else (if p(s[0]) then [s[0]] else []) + Filter(s[1..], p)
  }

  /** A value survives the filter exactly when it occurs in `s` and satisfies `p`. */
  lemma {:induction false} FilterMembers<T>(s: seq<T>, p: T -> bool, x: T)
    ensures x in Filter(s, p) <==> x in s && p(x)
  {
    if |s| > 0 {
      FilterMembers(s[1..], p, x);
      assert s == [s[0]] + s[1..];
    }
  }

  /** Filtering a concatenation filters each part: the filter keeps relative order. */
  lemma {:induction false} FilterAppend<T>(a: seq<T>, b: seq<T>, p: T -> bool)
    ensures Filter(a + b, p) == Filter(a, p) + Filter(b, p)
  {
    if |a| == 0 {
      assert a + b == b;
    } else {
      assert (a + b)[1..] == a[1..] + b;
      FilterAppend(a[1..], b, p);
    }
  }

  /** How many times each value occurs after filtering. */
  lemma {:induction false} FilterMultiset<T>(s: seq<T>, p: T -> bool)
    ensures forall x :: multiset(Filter(s, p))[x] == if p(x) then multiset(s)[x] else 0
  {
    if |s| > 0 {
      FilterMultiset(s[1..], p);
      assert s == [s[0]] + s[1..];
    }
  }

  /** A filter that keeps every element is the identity. */
  lemma {:induction false} FilterKeepsAll<T>(s: seq<T>, p: T -> bool)
    requires forall i :: 0 <= i < |s| ==> p(s[i])
    ensures Filter(s, p) == s
  {
    if |s| > 0 {
      FilterKeepsAll(s[1..], p);
    }
  }

  /** No value occurs twice. */
  predicate NoDup<T(==)>(s: seq<T>) {
    forall i, j :: 0 <= i < j < |s| ==> s[i] != s[j]
  }

  /** In a duplicate-free sequence every member occurs exactly once. */
  lemma {:induction false} NoDupOccursOnce<T>(s: seq<T>, x: T)
    requires NoDup(s) && x in s
    ensures multiset(s)[x] == 1
  {
    assert s == [s[0]] + s[1..];
    if s[0] == x {
      assert x !in s[1..];
    } else {
      NoDupOccursOnce(s[1..], x);
    }
  }

  /** Filtering never introduces a duplicate. */
  lemma {:induction false} FilterNoDup<T>(s: seq<T>, p: T -> bool)
    requires NoDup(s)
    ensures NoDup(Filter(s, p))
  {
    if |s| > 0 {
      FilterNoDup(s[1..], p);
      FilterMembers(s[1..], p, s[0]);
      assert s[0] !in s[1..];
    }
  }

  /** `s.filter((_, i) => i !== index)`: keeps every position except `index`. */
  function RemoveAt<T>(s: seq<T>, index: int): seq<T>
  {
    if |s| == 0 then []
    else (if index == 0 then [] else [s[0]]) + RemoveAt(s[1..], index - 1)
  }

  /** Removing an in-range position splices it out; any other index removes nothing. */
  lemma {:induction false} RemoveAtSplice<T>(s: seq<T>, index: int)
    ensures 0 <= index < |s| ==> RemoveAt(s, index) == s[..index] + s[index + 1..]
    ensures !(0 <= index < |s|) ==> RemoveAt(s, index) == s
  {
    if |s| > 0 {
      RemoveAtSplice(s[1..], index - 1);
      if index == 0 {
        assert s[index + 1..] == s[1..];
      } else if 0 < index < |s| {
        assert s[..index] == [s[0]] + s[1..][..index - 1];
        assert s[index + 1..] == s[1..][index..];
      } else {
        assert s == [s[0]] + s[1..];
      }
    }
  }
}

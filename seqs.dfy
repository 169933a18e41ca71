/**
 * Order-preserving selection over sequences: the shape of every LINQ `Where(...).ToList()`
 * and every `foreach ... if (...) list.Add(...)` in the application.
 */
module Seqs {

  /** The elements of `s` that satisfy `p`, in their original order (LINQ `Where`). */
  function Filter<T>(s: seq<T>, p: T -> bool): (r: seq<T>)
    ensures |r| <= |s|
  {
    if s == [] then []
    else Filter(s[..|s| - 1], p) + (if p(s[|s| - 1]) then [s[|s| - 1]] else [])
  }

  /** Everything the filter keeps satisfies `p` and comes from `s`; an element of `s` is kept exactly when it satisfies `p`. */
  lemma {:induction false} FilterMeaning<T>(s: seq<T>, p: T -> bool)
    ensures forall i :: 0 <= i < |Filter(s, p)| ==> p(Filter(s, p)[i]) && Filter(s, p)[i] in s
    ensures forall i :: 0 <= i < |s| ==> (s[i] in Filter(s, p) <==> p(s[i]))
  {
    if s != [] {
      var init, last := s[..|s| - 1], s[|s| - 1];
      FilterMeaning(init, p);
      var r, kept := Filter(s, p), Filter(init, p);
      assert s == init + [last];
      assert r == kept + (if p(last) then [last] else []);
      forall i | 0 <= i < |r|
        ensures p(r[i]) && r[i] in s
      {
        if i < |kept| {
          assert r[i] == kept[i];
        }
      }
      forall i | 0 <= i < |s|
        ensures s[i] in r <==> p(s[i])
      {
        if s[i] in r {
          var j :| 0 <= j < |r| && r[j] == s[i];
        }
        if p(s[i]) && i < |init| {
          assert s[i] == init[i];
          assert s[i] in kept;
        }
      }
    }
  }

  /** Filtering a sequence extended by one element extends the result by that element or by nothing. */
  lemma FilterSnoc<T>(s: seq<T>, x: T, p: T -> bool)
    ensures Filter(s + [x], p) == Filter(s, p) + (if p(x) then [x] else [])
  {
    assert (s + [x])[..|s|] == s;
  }

  /** An element of `s` that satisfies `p` survives the filter. */
  lemma FilterKeeps<T>(s: seq<T>, p: T -> bool, x: T)
    requires x in s && p(x)
    ensures x in Filter(s, p)
  {
    FilterMeaning(s, p);
    var i :| 0 <= i < |s| && s[i] == x;
  }

  /** What survives the filter was in `s` and satisfies `p`. */
  lemma FilterMember<T>(s: seq<T>, p: T -> bool, x: T)
    requires x in Filter(s, p)
    ensures x in s && p(x)
  {
    FilterMeaning(s, p);
    var r := Filter(s, p);
    var i :| 0 <= i < |r| && r[i] == x;
  }

  /** Filtering distributes over concatenation. */
  lemma {:induction false} FilterConcat<T>(a: seq<T>, b: seq<T>, p: T -> bool)
    ensures Filter(a + b, p) == Filter(a, p) + Filter(b, p)
  {
    if b != [] {
      var init := b[..|b| - 1];
      var last := b[|b| - 1];
      FilterConcat(a, init, p);
      assert b == init + [last];
      assert a + b == (a + init) + [last];
      FilterSnoc(a + init, last, p);
      FilterSnoc(init, last, p);
    } else {
      assert a + b == a;
    }
  }

  /** `a` is `b` with some elements left out: a strictly increasing choice of positions of `b`. */
  ghost predicate IsSubsequence<T>(a: seq<T>, b: seq<T>) {
    exists f: seq<int> :: IsEmbedding(f, a, b)
  }

  ghost predicate IsEmbedding<T>(f: seq<int>, a: seq<T>, b: seq<T>) {
    && |f| == |a|
    && (forall i :: 0 <= i < |f| ==> 0 <= f[i] < |b| && a[i] == b[f[i]])
    && (forall i, j :: 0 <= i < j < |f| ==> f[i] < f[j])
  }

  /** Filtering keeps the survivors in the order they had. */
  lemma {:induction false} FilterIsSubsequence<T>(s: seq<T>, p: T -> bool)
    ensures IsSubsequence(Filter(s, p), s)
  {
    if s == [] {
      assert IsEmbedding([], Filter(s, p), s);
    } else {
      var init := s[..|s| - 1];
      FilterIsSubsequence(init, p);
      var f :| IsEmbedding(f, Filter(init, p), init);
      if p(s[|s| - 1]) {
        assert IsEmbedding(f + [|s| - 1], Filter(s, p), s);
      } else {
        assert IsEmbedding(f, Filter(s, p), s);
      }
    }
  }

  /** When every element satisfies `p`, filtering changes nothing. */
  lemma {:induction false} FilterKeepsAll<T>(s: seq<T>, p: T -> bool)
    requires forall i :: 0 <= i < |s| ==> p(s[i])
    ensures Filter(s, p) == s
  {
    if s != [] {
      FilterKeepsAll(s[..|s| - 1], p);
      assert s[..|s| - 1] + [s[|s| - 1]] == s;
    }
  }

  /** Every element satisfies exactly one of `p` and its complement `q`, so the two counts add up. */
  lemma {:induction false} FilterComplementCounts<T>(s: seq<T>, p: T -> bool, q: T -> bool)
    requires forall x :: q(x) == !p(x)
    ensures |Filter(s, p)| + |Filter(s, q)| == |s|
  {
    if s != [] {
      FilterComplementCounts(s[..|s| - 1], p, q);
    }
  }
}

/**
 * LINQ's `OrderByDescending(major).ThenByDescending(minor)`: a stable sort on a two-part key,
 * highest key first, elements with equal keys kept in their original order. The leaderboard
 * ranks by (level, total experience) and the statistics grid by (shown-at time, 0).
 */
module StableSort {
  import opened Seqs

  /** A sort key: compared on `major` first and on `minor` when the majors tie. */
  datatype Key = Key(major: int, minor: int)

  /** `a` comes strictly before `b` in descending order. */
  predicate Outranks(a: Key, b: Key) {
    a.major > b.major || (a.major == b.major && a.minor > b.minor)
  }

  /** No element is outranked by a later one. */
  predicate SortedDesc<T>(s: seq<T>, key: T -> Key) {
    forall i, j :: 0 <= i < j < |s| ==> !Outranks(key(s[j]), key(s[i]))
  }

  /**
   * Inserts `x` in front of the first element it strictly outranks, that is, behind every
   * element whose key is at least as high; equal keys therefore keep their arrival order.
   */
  function Insert<T>(x: T, s: seq<T>, key: T -> Key): (r: seq<T>)
    ensures |r| == |s| + 1
  {
    if s == [] then [x]
    else if Outranks(key(x), key(s[0])) then [x] + s
    else [s[0]] + Insert(x, s[1..], key)
  }

  /** The stable descending sort: each element in turn is inserted into the sorted prefix. */
  function Sort<T>(s: seq<T>, key: T -> Key): (r: seq<T>)
    ensures |r| == |s|
  {
    if s == [] then []
    else Insert(s[|s| - 1], Sort(s[..|s| - 1], key), key)
  }

  /** Inserting adds `x` and nothing else. */
  lemma {:induction false} InsertPermutes<T>(x: T, s: seq<T>, key: T -> Key)
    ensures multiset(Insert(x, s, key)) == multiset(s) + multiset{x}
  {
    if s != [] && !Outranks(key(x), key(s[0])) {
      InsertPermutes(x, s[1..], key);
      assert s == [s[0]] + s[1..];
    }
  }

  /** The sort is a permutation: it keeps every element as often as it occurs. */
  lemma {:induction false} SortPermutes<T>(s: seq<T>, key: T -> Key)
    ensures multiset(Sort(s, key)) == multiset(s)
  {
    if s != [] {
      var init, last := s[..|s| - 1], s[|s| - 1];
      SortPermutes(init, key);
      InsertPermutes(last, Sort(init, key), key);
      assert s == init + [last];
    }
  }

  /** Inserting into a sorted sequence keeps it sorted. */
  lemma {:induction false} InsertSorted<T>(x: T, s: seq<T>, key: T -> Key)
    requires SortedDesc(s, key)
    ensures SortedDesc(Insert(x, s, key), key)
  {
    if s != [] && !Outranks(key(x), key(s[0])) {
      var rest := Insert(x, s[1..], key);
      InsertSorted(x, s[1..], key);
      InsertPermutes(x, s[1..], key);
      forall j | 0 <= j < |rest|
        ensures !Outranks(key(rest[j]), key(s[0]))
      {
        assert rest[j] in multiset(rest);
        if rest[j] != x {
          assert rest[j] in multiset(s[1..]);
          var k :| 0 <= k < |s[1..]| && s[1..][k] == rest[j];
          assert s[k + 1] == rest[j];
        }
      }
      assert Insert(x, s, key) == [s[0]] + rest;
    }
  }

  /** The sort orders its result, highest key first. */
  lemma {:induction false} SortSorted<T>(s: seq<T>, key: T -> Key)
    ensures SortedDesc(Sort(s, key), key)
  {
    if s != [] {
      SortSorted(s[..|s| - 1], key);
      InsertSorted(s[|s| - 1], Sort(s[..|s| - 1], key), key);
    }
  }

  /** The test "has key `k`". */
  function HasKey<T>(key: T -> Key, k: Key): T -> bool {
    (e: T) => key(e) == k
  }

  /** The elements with key `k`. */
  function WithKey<T>(s: seq<T>, key: T -> Key, k: Key): seq<T> {
    Filter(s, HasKey(key, k))
  }

  /** The filter on a one-element sequence keeps it or drops it. */
  lemma FilterSingle<T>(x: T, p: T -> bool)
    ensures Filter([x], p) == if p(x) then [x] else []
  {
    FilterSnoc([], x, p);
    assert [] + [x] == [x];
  }

  /**
   * Putting `x` in front of a sorted sequence whose first element it outranks adds it behind
   * the elements with its key, since none of them has its key.
   */
  lemma InsertFrontStable<T>(x: T, s: seq<T>, key: T -> Key, k: Key)
    requires SortedDesc(s, key) && s != [] && Outranks(key(x), key(s[0]))
    ensures WithKey([x] + s, key, k) == WithKey(s, key, k) + (if key(x) == k then [x] else [])
  {
    var p := HasKey(key, k);
    FilterConcat([x], s, p);
    FilterSingle(x, p);
    if key(x) == k {
      // every element of the sorted `s` ranks no higher than s[0], hence below x
      forall i | 0 <= i < |s|
        ensures !p(s[i])
      {
        assert i == 0 || !Outranks(key(s[i]), key(s[0]));
      }
      FilterNone(s, p);
    }
  }

  /** Inserting into a sorted sequence puts `x` behind every element with the same key. */
  lemma {:induction false} InsertStable<T>(x: T, s: seq<T>, key: T -> Key, k: Key)
    requires SortedDesc(s, key)
    ensures WithKey(Insert(x, s, key), key, k)
         == WithKey(s, key, k) + (if key(x) == k then [x] else [])
  {
    var p := HasKey(key, k);
    if s == [] {
      FilterSingle(x, p);
    } else if Outranks(key(x), key(s[0])) {
      InsertFrontStable(x, s, key, k);
    } else {
      var rest := s[1..];
      var tail := if key(x) == k then [x] else [];
      InsertStable(x, rest, key, k);
      calc {
        WithKey(Insert(x, s, key), key, k);
        Filter([s[0]] + Insert(x, rest, key), p);
        { FilterConcat([s[0]], Insert(x, rest, key), p); }
        Filter([s[0]], p) + (WithKey(rest, key, k) + tail);
        { FilterConcat([s[0]], rest, p); assert [s[0]] + rest == s; }
        WithKey(s, key, k) + tail;
      }
    }
  }

  /** A filter that keeps nothing leaves nothing. */
  lemma {:induction false} FilterNone<T>(s: seq<T>, p: T -> bool)
    requires forall i :: 0 <= i < |s| ==> !p(s[i])
    ensures Filter(s, p) == []
  {
    if s != [] {
      FilterNone(s[..|s| - 1], p);
    }
  }

  /** Stability: for every key, the elements carrying it come out in their original order. */
  lemma {:induction false} SortStable<T>(s: seq<T>, key: T -> Key, k: Key)
    ensures WithKey(Sort(s, key), key, k) == WithKey(s, key, k)
  {
    if s != [] {
      var init, last := s[..|s| - 1], s[|s| - 1];
      var tail := if key(last) == k then [last] else [];
      SortSorted(init, key);
      calc {
        WithKey(Sort(s, key), key, k);
        WithKey(Insert(last, Sort(init, key), key), key, k);
        { InsertStable(last, Sort(init, key), key, k); }
        WithKey(Sort(init, key), key, k) + tail;
        { SortStable(init, key, k); }
        WithKey(init, key, k) + tail;
        { FilterSnoc(init, last, HasKey(key, k)); assert init + [last] == s; }
        WithKey(s, key, k);
      }
    }
  }

  /** An element that no element of `s` ranks below goes to the end. */
  lemma {:induction false} InsertAtEnd<T>(x: T, s: seq<T>, key: T -> Key)
    requires forall i :: 0 <= i < |s| ==> !Outranks(key(x), key(s[i]))
    ensures Insert(x, s, key) == s + [x]
  {
    if s != [] {
      InsertAtEnd(x, s[1..], key);
      assert [s[0]] + (s[1..] + [x]) == s + [x];
    }
  }

  /** A sequence that is already sorted comes out unchanged. */
  lemma {:induction false} SortOfSorted<T>(s: seq<T>, key: T -> Key)
    requires SortedDesc(s, key)
    ensures Sort(s, key) == s
  {
    if s != [] {
      var init, last := s[..|s| - 1], s[|s| - 1];
      SortOfSorted(init, key);
      InsertAtEnd(last, init, key);
      assert init + [last] == s;
    }
  }

  /** LINQ `Take(count)`: the first `count` elements, all of them if there are fewer, none if `count <= 0`. */
  function Take<T>(s: seq<T>, count: int): (r: seq<T>)
    ensures |r| == if count <= 0 then 0 else if count < |s| then count else |s|
    ensures r == s[..|r|]
  {
    if count <= 0 then [] else if count < |s| then s[..count] else s
  }
}

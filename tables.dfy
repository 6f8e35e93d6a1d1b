/** Rows of a table in insertion order and the query shapes the services use on them:
    `.first()`, filtering, counting, `order_by` and `limit`. */
module Tables {

  /** The position of the first row satisfying `p`, or |s| when there is none. */
  function FirstIndex<T>(s: seq<T>, p: T -> bool): (k: nat)
    ensures k <= |s|
    ensures k < |s| ==> p(s[k])
    ensures forall j :: 0 <= j < k ==> !p(s[j])
  {
    if s == [] then 0
    else if p(s[0]) then 0
    else 1 + FirstIndex(s[1..], p)
  }

  function Filter<T>(s: seq<T>, p: T -> bool): (r: seq<T>)
    ensures |r| <= |s|
    ensures forall i :: 0 <= i < |r| ==> r[i] in s && p(r[i])
    ensures forall i :: 0 <= i < |s| && p(s[i]) ==> s[i] in r
  {
    if s == [] then []
    else if p(s[0]) then [s[0]] + Filter(s[1..], p)
    else Filter(s[1..], p)
  }

  function Count<T>(s: seq<T>, p: T -> bool): (n: nat)
    ensures n <= |s|
    ensures n == 0 <==> forall i :: 0 <= i < |s| ==> !p(s[i])
  {
    if s == [] then 0
    else (if p(s[0]) then 1 else 0) + Count(s[1..], p)
  }

  lemma {:induction false} CountIsFilterLength<T>(s: seq<T>, p: T -> bool)
    ensures Count(s, p) == |Filter(s, p)|
  {
    if s != [] { CountIsFilterLength(s[1..], p); }
  }

  lemma {:induction false} CountSplit<T>(s: seq<T>, p: T -> bool, q: T -> bool)
    ensures Count(s, p) == Count(s, x => p(x) && q(x)) + Count(s, x => p(x) && !q(x))
  {
    if s != [] { CountSplit(s[1..], p, q); }
  }

  lemma {:induction false} CountMonotone<T>(s: seq<T>, p: T -> bool, q: T -> bool)
    requires forall i :: 0 <= i < |s| && p(s[i]) ==> q(s[i])
    ensures Count(s, p) <= Count(s, q)
  {
    if s != [] { CountMonotone(s[1..], p, q); }
  }

  lemma {:induction false} CountSnoc<T>(s: seq<T>, x: T, p: T -> bool)
    ensures Count(s + [x], p) == Count(s, p) + if p(x) then 1 else 0
  {
    if s != [] {
      assert (s + [x])[1..] == s[1..] + [x];
      CountSnoc(s[1..], x, p);
    }
  }

  predicate SortedBy<T>(s: seq<T>, key: T -> int)
  {
    forall i, j :: 0 <= i < j < |s| ==> key(s[i]) <= key(s[j])
  }

  /** Rewriting the row just appended. */
  lemma UpdateLast<T>(s: seq<T>, x: T, y: T)
    ensures (s + [x])[|s| := y] == s + [y]
  {
  }

  lemma SortedCons<T>(h: T, t: seq<T>, key: T -> int)
    requires SortedBy(t, key) && forall k :: 0 <= k < |t| ==> key(h) <= key(t[k])
    ensures SortedBy([h] + t, key)
  {
    var r := [h] + t;
    forall i, j | 0 <= i < j < |r|
      ensures key(r[i]) <= key(r[j])
    {
      if i > 0 {
        assert r[i] == t[i - 1] && r[j] == t[j - 1];
      } else {
        assert r[j] == t[j - 1];
      }
    }
  }

  function InsertBy<T>(x: T, s: seq<T>, key: T -> int): (r: seq<T>)
    requires SortedBy(s, key)
    ensures SortedBy(r, key)
    ensures multiset(r) == multiset(s) + multiset{x}
    ensures |r| == |s| + 1 && (r[0] == x || (s != [] && r[0] == s[0]))
  {
    if s == [] || key(x) < key(s[0]) then [x] + s
    else
      var rest := InsertBy(x, s[1..], key);
      assert s == [s[0]] + s[1..];
      assert key(s[0]) <= key(rest[0]);
      forall k | 0 <= k < |rest|
        ensures key(s[0]) <= key(rest[k])
      {
        if k > 0 {
          assert key(rest[0]) <= key(rest[k]);
        }
      }
      SortedCons(s[0], rest, key);
      [s[0]] + rest
  }

  /** `order_by(key)` as a stable sort: rows with equal keys keep their table order. */
  function SortBy<T>(s: seq<T>, key: T -> int): (r: seq<T>)
    ensures SortedBy(r, key)
    ensures multiset(r) == multiset(s) && |r| == |s|
    ensures forall i :: 0 <= i < |r| ==> r[i] in s
    ensures forall i :: 0 <= i < |s| ==> s[i] in r
  {
    if s == [] then []
    else
      assert s == s[..|s| - 1] + [s[|s| - 1]];
      var r := InsertBy(s[|s| - 1], SortBy(s[..|s| - 1], key), key);
      assert forall i :: 0 <= i < |r| ==> r[i] in multiset(r);
      assert forall i :: 0 <= i < |s| ==> s[i] in multiset(s);
      r
  }

  /** SQL `LIMIT n`: a negative limit means no limit. */
  function Take<T>(s: seq<T>, n: int): (r: seq<T>)
    ensures |r| <= |s| && r == s[..|r|]
    ensures |r| == if n < 0 || n >= |s| then |s| else n
  {
    if n < 0 || n >= |s| then s else s[..n]
  }

  /** The sorted selection holds exactly the rows the predicate selects. */
  lemma SortedSelection<T>(s: seq<T>, p: T -> bool, key: T -> int)
    ensures forall x :: x in SortBy(Filter(s, p), key) <==> x in s && p(x)
  {
    var due := Filter(s, p);
    var sorted := SortBy(due, key);
    forall x | x in sorted
      ensures x in s && p(x)
    {
      assert x in multiset(due);
    }
    forall x | x in s && p(x)
      ensures x in sorted
    {
      assert x in due;
      assert x in multiset(sorted);
    }
  }

  /** A prefix of a sorted table is sorted. */
  lemma TakeSorted<T>(s: seq<T>, key: T -> int, n: int)
    requires SortedBy(s, key)
    ensures SortedBy(Take(s, n), key)
  {
  }

  /** The first `n` rows of a sorted table hold the smallest keys: a row left
      out means the limit was reached, with no larger key than it taken. */
  lemma TakeSortedKeepsSmallest<T>(s: seq<T>, key: T -> int, n: int, x: T)
    requires SortedBy(s, key) && x in s && x !in Take(s, n)
    ensures |Take(s, n)| == n
    ensures forall y :: y in Take(s, n) ==> key(y) <= key(x)
  {
    var r := Take(s, n);
    var j :| 0 <= j < |s| && s[j] == x;
    forall y | y in r
      ensures key(y) <= key(x)
    {
      var i :| 0 <= i < |r| && r[i] == y;
      assert s[i] == y;
    }
  }

  // ---------------------------------------------------------------- tallies

  /** How many rows have `key(row) == k`, counting from the back as a loop
      that walks the rows front to back accumulates it. */
  function Tally<T, K(==)>(s: seq<T>, key: T -> K, k: K): (n: nat)
    ensures n <= |s|
  {
    if s == [] then 0
    else Tally(s[..|s| - 1], key, k) + (if key(s[|s| - 1]) == k then 1 else 0)
  }

  /** A tally is the count of the rows whose key is `k`. */
  lemma {:induction false} TallyIsCount<T, K>(s: seq<T>, key: T -> K, k: K, p: T -> bool)
    requires forall x :: p(x) == (key(x) == k)
    ensures Tally(s, key, k) == Count(s, p)
  {
    if s != [] {
      var front := s[..|s| - 1];
      assert front + [s[|s| - 1]] == s;
      TallyIsCount(front, key, k, p);
      CountSnoc(front, s[|s| - 1], p);
    }
  }

  /** The rows with `key(row) == k`, in table order. */
  function Where<T, K(==)>(s: seq<T>, key: T -> K, k: K): (r: seq<T>)
    ensures |r| == Tally(s, key, k)
    ensures forall i :: 0 <= i < |r| ==> key(r[i]) == k && r[i] in s
  {
    if s == [] then []
    else Where(s[..|s| - 1], key, k) + (if key(s[|s| - 1]) == k then [s[|s| - 1]] else [])
  }

  /** Every row is among the rows with its own key. */
  lemma {:induction false} WhereComplete<T, K>(s: seq<T>, key: T -> K, i: int)
    requires 0 <= i < |s|
    ensures s[i] in Where(s, key, key(s[i]))
  {
    if i < |s| - 1 {
      WhereComplete(s[..|s| - 1], key, i);
    }
  }

  /** The tallies of several keys added up. */
  function SumTally<T, K(==)>(s: seq<T>, key: T -> K, ks: seq<K>): nat
  {
    if ks == [] then 0 else Tally(s, key, ks[0]) + SumTally(s, key, ks[1..])
  }

  /** How often `k` is listed in `ks`. */
  function Occurrences<K(==)>(ks: seq<K>, k: K): nat
  {
    if ks == [] then 0 else (if ks[0] == k then 1 else 0) + Occurrences(ks[1..], k)
  }

  /** In a list without repeats, a key occurs once if it is listed and never otherwise. */
  lemma {:induction false} DistinctOccurrences<K>(ks: seq<K>, k: K)
    requires forall i, j :: 0 <= i < j < |ks| ==> ks[i] != ks[j]
    ensures Occurrences(ks, k) == if k in ks then 1 else 0
  {
    if ks != [] {
      DistinctOccurrences(ks[1..], k);
      if ks[0] == k {
        assert k !in ks[1..] by {
          forall j | 0 <= j < |ks| - 1 ensures ks[1..][j] != k {
            assert ks[0] != ks[j + 1];
          }
        }
      } else {
        assert k in ks <==> k in ks[1..] by {
          if k in ks {
            var j :| 0 <= j < |ks| && ks[j] == k;
            assert ks[1..][j - 1] == k;
          }
        }
      }
    }
  }

  lemma {:induction false} SumTallySnoc<T, K>(s: seq<T>, x: T, key: T -> K, ks: seq<K>)
    ensures SumTally(s + [x], key, ks) == SumTally(s, key, ks) + Occurrences(ks, key(x))
  {
    assert (s + [x])[..|s + [x]| - 1] == s;
    if ks != [] { SumTallySnoc(s, x, key, ks[1..]); }
  }

  /** When the listed keys name every row at most once, their tallies add up
      to at most the number of rows; exactly once, to exactly that number. */
  lemma {:induction false} SumTallyBound<T, K>(s: seq<T>, key: T -> K, ks: seq<K>)
    requires forall i :: 0 <= i < |s| ==> Occurrences(ks, key(s[i])) <= 1
    ensures SumTally(s, key, ks) <= |s|
    ensures (forall i :: 0 <= i < |s| ==> Occurrences(ks, key(s[i])) == 1) ==> SumTally(s, key, ks) == |s|
  {
    if s == [] {
      SumTallyEmpty(key, ks);
    } else {
      var front := s[..|s| - 1];
      assert front + [s[|s| - 1]] == s;
      SumTallyBound(front, key, ks);
      SumTallySnoc(front, s[|s| - 1], key, ks);
    }
  }

  lemma {:induction false} SumTallyEmpty<T, K>(key: T -> K, ks: seq<K>)
    ensures SumTally([], key, ks) == 0
  {
    if ks != [] { SumTallyEmpty(key, ks[1..]); }
  }
}

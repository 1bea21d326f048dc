/**
 * The stable sort both backends rely on: `Array.prototype.sort` (stable since
 * ES2019) and Python's `list.sort` (stable, also with `reverse=True`).
 * Sorting is ascending by an integer key; a descending sort uses the negated key.
 * Stability is stated as: for every key value, the elements carrying that value
 * appear in the output in exactly the order they had in the input.
 */
module StableSort {
  import Seqs


  predicate SortedBy<T>(s: seq<T>, key: T -> int) {
    forall i, j :: 0 <= i < j < |s| ==> key(s[i]) <= key(s[j])
  }

  /** The elements of `s` whose key is `k`, in their order in `s`. */
  function WithKey<T>(s: seq<T>, key: T -> int, k: int): seq<T> {
    if s == [] then []
    else (if key(s[0]) == k then [s[0]] else []) + WithKey(s[1..], key, k)
  }

  /** Places `x` before the first element whose key is not smaller. */
  function Insert<T>(x: T, s: seq<T>, key: T -> int): seq<T> {
    if s == [] || key(x) <= key(s[0]) then [x] + s
    else [s[0]] + Insert(x, s[1..], key)
  }

  /** Insertion sort, the reference for the library sorts. */
  function SortBy<T>(s: seq<T>, key: T -> int): (r: seq<T>)
    ensures |r| == |s|
    ensures multiset(r) == multiset(s)
    ensures SortedBy(r, key)
  {
    if s == [] then []
    else
      var rest := SortBy(s[1..], key);
      SortByStep(s, rest, key);
      Insert(s[0], rest, key)
  }

  /** Inserting the head of `s` into a sorted arrangement of its tail sorts `s`. */
  lemma SortByStep<T>(s: seq<T>, rest: seq<T>, key: T -> int)
    requires s != [] && multiset(rest) == multiset(s[1..]) && SortedBy(rest, key)
    ensures |Insert(s[0], rest, key)| == |s|
    ensures multiset(Insert(s[0], rest, key)) == multiset(s)
    ensures SortedBy(Insert(s[0], rest, key), key)
  {
    InsertSorted(s[0], rest, key);
    InsertCounts(s[0], rest, key);
    assert s == [s[0]] + s[1..];
    assert |rest| == |multiset(rest)| == |s[1..]|;
  }

  /** Inserting adds exactly `x`, and the result opens with `x` or with the old first element. */
  lemma {:induction false} InsertCounts<T>(x: T, s: seq<T>, key: T -> int)
    ensures |Insert(x, s, key)| == |s| + 1
    ensures multiset(Insert(x, s, key)) == multiset(s) + multiset{x}
    ensures Insert(x, s, key)[0] == x || (s != [] && Insert(x, s, key)[0] == s[0])
    decreases |s|
  {
    if s != [] && key(s[0]) < key(x) {
      InsertCounts(x, s[1..], key);
      assert s == [s[0]] + s[1..];
    }
  }

  /** Inserting into a sorted sequence keeps it sorted. */
  lemma {:induction false} InsertSorted<T>(x: T, s: seq<T>, key: T -> int)
    requires SortedBy(s, key)
    ensures SortedBy(Insert(x, s, key), key)
    decreases |s|
  {
    if s == [] || key(x) <= key(s[0]) {
      SortedCons(x, s, key);
    } else {
      var t := Insert(x, s[1..], key);
      InsertSorted(x, s[1..], key);
      InsertCounts(x, s[1..], key);
      assert key(s[0]) <= key(t[0]) by {
        if t[0] != x { assert t[0] == s[1]; }
      }
      SortedCons(s[0], t, key);
    }
  }

  /** An element no greater than the head of a sorted sequence can go in front of it. */
  lemma SortedCons<T>(y: T, t: seq<T>, key: T -> int)
    requires SortedBy(t, key)
    requires t == [] || key(y) <= key(t[0])
    ensures SortedBy([y] + t, key)
  {
    var r := [y] + t;
    forall i, j | 0 <= i < j < |r| ensures key(r[i]) <= key(r[j]) {
      if i == 0 {
        assert r[j] == t[j - 1];
        assert key(t[0]) <= key(t[j - 1]);
      } else {
        assert r[i] == t[i - 1] && r[j] == t[j - 1];
      }
    }
  }

  lemma {:induction false} WithKeyInsert<T>(x: T, s: seq<T>, key: T -> int, k: int)
    ensures WithKey(Insert(x, s, key), key, k) == (if key(x) == k then [x] else []) + WithKey(s, key, k)
    decreases |s|
  {
    if s == [] || key(x) <= key(s[0]) {
      WithKeyCons(x, s, key, k);
    } else {
      var own := if key(x) == k then [x] else [];
      WithKeyInsert(x, s[1..], key, k);
      assert Insert(x, s, key) == [s[0]] + Insert(x, s[1..], key);
      assert s == [s[0]] + s[1..];
      WithKeyPass(s[0], Insert(x, s[1..], key), s[1..], key, k, own);
    }
  }

  /** Putting `y` in front of two sequences keeps their key-`k` parts `own` apart when `y` is not itself in `own`'s place. */
  lemma WithKeyPass<T>(y: T, t: seq<T>, u: seq<T>, key: T -> int, k: int, own: seq<T>)
    requires key(y) == k ==> own == []
    requires WithKey(t, key, k) == own + WithKey(u, key, k)
    ensures WithKey([y] + t, key, k) == own + WithKey([y] + u, key, k)
  {
    WithKeyCons(y, t, key, k);
    WithKeyCons(y, u, key, k);
  }

  lemma WithKeyCons<T>(y: T, t: seq<T>, key: T -> int, k: int)
    ensures WithKey([y] + t, key, k) == (if key(y) == k then [y] else []) + WithKey(t, key, k)
  {
    assert ([y] + t)[1..] == t;
  }

  /** Stability: sorting keeps the relative order of the elements that share a key. */
  lemma {:induction false} SortByStable<T>(s: seq<T>, key: T -> int, k: int)
    ensures WithKey(SortBy(s, key), key, k) == WithKey(s, key, k)
    decreases |s|
  {
    if s != [] {
      SortByStable(s[1..], key, k);
      WithKeyInsert(s[0], SortBy(s[1..], key), key, k);
    }
  }

  /** The elements with a given key form an ordered sub-sequence: none is left out or added. */
  lemma {:induction false} WithKeyMembers<T>(s: seq<T>, key: T -> int, k: int, x: T)
    ensures x in WithKey(s, key, k) <==> x in s && key(x) == k
    decreases |s|
  {
    if s != [] {
      WithKeyMembers(s[1..], key, k, x);
      assert s == [s[0]] + s[1..];
    }
  }

  /** Cutting a sequence short cuts each key's sub-sequence short: what remains of it is a prefix. */
  lemma {:induction false} WithKeyTake<T>(s: seq<T>, key: T -> int, k: int, n: nat)
    requires n <= |s|
    ensures var w := WithKey(s[..n], key, k); |w| <= |WithKey(s, key, k)| && w == WithKey(s, key, k)[..|w|]
    decreases n
  {
    if n > 0 {
      assert s[..n][1..] == s[1..][..n - 1];
      WithKeyTake(s[1..], key, k, n - 1);
    }
  }

  /** Keeping the first `n` of the sorted sequence keeps, for every key, the first elements carrying it in input order. */
  lemma SortedTakeStable<T>(s: seq<T>, key: T -> int, k: int, n: nat)
    requires n <= |s|
    ensures var same := WithKey(SortBy(s, key)[..n], key, k);
            var all := WithKey(s, key, k);
            |same| <= |all| && same == all[..|same|]
  {
    WithKeyTake(SortBy(s, key), key, k, n);
    SortByStable(s, key, k);
  }

  /** Any front `r` of the sorted sequence keeps, for every key, the first elements carrying it in input order. */
  lemma SortedPrefixStable<T>(s: seq<T>, key: T -> int, k: int, r: seq<T>)
    requires |r| <= |s| && r == SortBy(s, key)[..|r|]
    ensures var same := WithKey(r, key, k);
            var all := WithKey(s, key, k);
            |same| <= |all| && same == all[..|same|]
  {
    SortedTakeStable(s, key, k, |r|);
  }

  /** Sorting neither adds nor loses elements. */
  lemma SortByMembers<T>(s: seq<T>, key: T -> int, x: T)
    ensures x in SortBy(s, key) <==> x in s
  {
    assert x in SortBy(s, key) <==> x in multiset(SortBy(s, key));
    assert x in s <==> x in multiset(s);
  }

  /** What the first `n` of `a + b` take from a sorted `b` stays sorted. */
  lemma SortedTakeConcatTail<T>(a: seq<T>, b: seq<T>, n: nat, key: T -> int)
    requires SortedBy(b, key)
    ensures var r := Seqs.Take(a + b, n);
            forall i, j :: |a| <= i < j < |r| ==> key(r[i]) <= key(r[j])
  {
    var r := Seqs.Take(a + b, n);
    Seqs.TakeConcat(a, b, n);
    forall i, j | |a| <= i < j < |r| ensures key(r[i]) <= key(r[j]) {
      assert r[i] == b[i - |a|] && r[j] == b[j - |a|];
    }
  }

  /** A prefix of a sorted sequence is sorted. */
  lemma SortedPrefix<T>(s: seq<T>, key: T -> int, n: nat)
    requires SortedBy(s, key)
    ensures SortedBy(s[..if n <= |s| then n else |s|], key)
  {
  }
}

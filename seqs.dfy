/** `filter`, `slice(0, n)` and friends on sequences, with the facts the models use. */
module Seqs {

  /** The elements of `s` that satisfy `p`, in their order in `s` (`Array.prototype.filter`). */
  function Filter<T>(s: seq<T>, p: T -> bool): (r: seq<T>)
    ensures |r| <= |s|
    ensures forall i :: 0 <= i < |r| ==> p(r[i])
    ensures forall x :: x in r ==> x in s
  {
    if s == [] then []
    else (if p(s[0]) then [s[0]] else []) + Filter(s[1..], p)
  }

  /** Filtering keeps every element that satisfies the predicate. */
  lemma {:induction false} FilterKeeps<T>(s: seq<T>, p: T -> bool, x: T)
    requires x in s && p(x)
    ensures x in Filter(s, p)
    decreases |s|
  {
    if s[0] != x {
      assert x in s[1..];
      FilterKeeps(s[1..], p, x);
    }
  }

  /** Filtering distributes over concatenation. */
  lemma {:induction false} FilterAppend<T>(a: seq<T>, b: seq<T>, p: T -> bool)
    ensures Filter(a + b, p) == Filter(a, p) + Filter(b, p)
    decreases |a|
  {
    if a != [] {
      assert (a + b)[0] == a[0] && (a + b)[1..] == a[1..] + b;
      FilterAppend(a[1..], b, p);
      calc {
        Filter(a + b, p);
        (if p(a[0]) then [a[0]] else []) + Filter(a[1..] + b, p);
        (if p(a[0]) then [a[0]] else []) + (Filter(a[1..], p) + Filter(b, p));
      }
    } else {
      assert a + b == b;
    }
  }

  /** Filtering keeps everything when every element satisfies the predicate. */
  lemma {:induction false} FilterAll<T>(s: seq<T>, p: T -> bool)
    requires forall i :: 0 <= i < |s| ==> p(s[i])
    ensures Filter(s, p) == s
    decreases |s|
  {
    if s != [] {
      FilterAll(s[1..], p);
      assert s == [s[0]] + s[1..];
    }
  }

  function Min(a: int, b: int): int { if a <= b then a else b }

  /** The first `n` elements, or all of them when there are fewer (`slice(0, n)`, `[:n]`). */
  function Take<T>(s: seq<T>, n: nat): (r: seq<T>)
    ensures |r| == Min(n, |s|)
    ensures r == s[..|r|]
  {
    s[..Min(n, |s|)]
  }
  /** The first `n` of a concatenation: the front of `a`, then the front of `b`. */
  lemma TakeConcat<T>(a: seq<T>, b: seq<T>, n: nat)
    ensures var r := Take(a + b, n);
            && |r| == Min(n, |a| + |b|)
            && (forall i :: 0 <= i < |r| && i < |a| ==> r[i] == a[i])
            && (forall i :: |a| <= i < |r| ==> r[i] == b[i - |a|])
  {
  }

  /** Appending `f` of the last element to `f` of the others gives `f` of each element. */
  lemma SnocMapped<A, B>(xs: seq<A>, prev: seq<B>, ys: seq<B>, f: A -> B)
    requires xs != [] && |prev| == |xs| - 1
    requires forall i :: 0 <= i < |prev| ==> prev[i] == f(xs[i])
    requires ys == prev + [f(xs[|xs| - 1])]
    ensures |ys| == |xs| && forall i :: 0 <= i < |xs| ==> ys[i] == f(xs[i])
  {
    forall i | 0 <= i < |xs| ensures ys[i] == f(xs[i]) {
      if i < |prev| { assert ys[i] == prev[i]; }
    }
  }

  /** Whatever holds of every element of `b` holds of what the first `n` of `a + b` take from `b`. */
  lemma TakeConcatTail<T>(a: seq<T>, b: seq<T>, n: nat, p: T -> bool)
    requires forall k :: 0 <= k < |b| ==> p(b[k])
    ensures var r := Take(a + b, n); forall i :: |a| <= i < |r| ==> p(r[i])
  {
    var r := Take(a + b, n);
    TakeConcat(a, b, n);
    forall i | |a| <= i < |r| ensures p(r[i]) {
      assert r[i] == b[i - |a|];
    }
  }

  /** An element of the first `n` of `a + b` comes from `a` or from `b`. */
  lemma TakeConcatMember<T>(a: seq<T>, b: seq<T>, n: nat, x: T)
    requires x in Take(a + b, n)
    ensures x in a || x in b
  {
    assert x in a + b;
  }


  /** All the sequences of `ss`, one after the other. */
  function Concat<T>(ss: seq<seq<T>>): seq<T> {
    if ss == [] then [] else Concat(ss[..|ss| - 1]) + ss[|ss| - 1]
  }
}

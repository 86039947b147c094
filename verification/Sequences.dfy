/** Filters, bounded suffixes and increasing number sequences, shared by every store. */
module Sequences {

  datatype Option<+T> = None | Some(value: T)

  /** The elements of `s` that satisfy `p`, in order. */
  function Filter<T>(s: seq<T>, p: T -> bool): (r: seq<T>)
    ensures |r| <= |s|
  {
    if s == [] then []
    else Filter(s[..|s| - 1], p) + (if p(s[|s| - 1]) then [s[|s| - 1]] else [])
  }

  lemma {:induction false} FilterMembers<T(!new)>(s: seq<T>, p: T -> bool)
    ensures forall x :: x in Filter(s, p) <==> x in s && p(x)
  {
    if s != [] {
      FilterMembers(s[..|s| - 1], p);
      assert s == s[..|s| - 1] + [s[|s| - 1]];
    }
  }

  lemma {:induction false} FilterConcat<T>(a: seq<T>, b: seq<T>, p: T -> bool)
    ensures Filter(a + b, p) == Filter(a, p) + Filter(b, p)
  {
    if b == [] {
      assert a + b == a;
    } else {
      var m := |b| - 1;
      FilterConcat(a, b[..m], p);
      assert (a + b)[..|a + b| - 1] == a + b[..m] && (a + b)[|a + b| - 1] == b[m];
    }
  }

  lemma FilterPrefixStep<T>(s: seq<T>, i: nat, p: T -> bool)
    requires i < |s|
    ensures Filter(s[..i + 1], p) == Filter(s[..i], p) + (if p(s[i]) then [s[i]] else [])
  {
    assert s[..i + 1][..i] == s[..i];
  }

  lemma {:induction false} FilterAll<T>(s: seq<T>, p: T -> bool)
    requires forall x :: x in s ==> p(x)
    ensures Filter(s, p) == s
  {
    if s != [] {
      FilterAll(s[..|s| - 1], p);
      assert s == s[..|s| - 1] + [s[|s| - 1]];
    }
  }

  lemma {:induction false} FilterAgree<T>(s: seq<T>, p: T -> bool, q: T -> bool)
    requires forall x :: x in s ==> p(x) == q(x)
    ensures Filter(s, p) == Filter(s, q)
  {
    if s != [] {
      FilterAgree(s[..|s| - 1], p, q);
    }
  }

  lemma {:induction false} FilterNone<T>(s: seq<T>, p: T -> bool)
    requires forall x :: x in s ==> !p(x)
    ensures Filter(s, p) == []
  {
    if s != [] {
      FilterNone(s[..|s| - 1], p);
    }
  }

  /** The newest `max` elements of `s`: what a drop-oldest bounded buffer keeps. */
  function Newest<T>(s: seq<T>, max: nat): (r: seq<T>)
    ensures |r| == if |s| > max then max else |s|
  {
    if |s| > max then s[|s| - max..] else s
  }

  /** What a drop-oldest bounded buffer has dropped. */
  function Overflow<T>(s: seq<T>, max: nat): (r: seq<T>)
    ensures r + Newest(s, max) == s
  {
    if |s| > max then s[..|s| - max] else []
  }

  lemma NewestCut<T>(s: seq<T>, max: nat)
    ensures Newest(s, max) == if |s| > max then s[|s| - max..] else s
  {
  }

  lemma NewestSuffix<T>(s: seq<T>, max: nat)
    ensures Newest(s, max) == s[|s| - |Newest(s, max)|..]
  {
  }

  /** Trimming after every append keeps exactly the newest elements of the whole stream. */
  lemma NewestAppend<T>(s: seq<T>, x: T, max: nat)
    requires max >= 1
    ensures Newest(Newest(s, max) + [x], max) == Newest(s + [x], max)
  {
  }
}

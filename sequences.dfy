/**
 * Keep-and-transform over a sequence: both handler loops walk a sequence in
 * order, skip some elements and append a projection of the others.
 */
module Sequences {
  import opened Wrappers

  /** The `Some` results of `f` over `s`, in the order of `s`. */
  function FilterMap<T, U>(s: seq<T>, f: T -> Option<U>): seq<U>
    decreases |s|
  {
    if s == [] then []
    else
      FilterMap(s[..|s| - 1], f)
      + match f(s[|s| - 1]) case Some(u) => [u] case None => []
  }

  /** How many elements of `s` the function `f` keeps. */
  function CountSome<T, U>(s: seq<T>, f: T -> Option<U>): nat
    decreases |s|
  {
    if s == [] then 0
    else CountSome(s[..|s| - 1], f) + if f(s[|s| - 1]).Some? then 1 else 0
  }

  /**
   * FilterMap places each kept element at its rank among the kept elements:
   * the result has one entry per kept element, order preserved, and dropped
   * elements leave no trace.
   */
  lemma {:induction false} FilterMapByRank<T, U>(s: seq<T>, f: T -> Option<U>)
    ensures |FilterMap(s, f)| == CountSome(s, f)
    ensures forall i :: 0 <= i < |s| && f(s[i]).Some? ==>
              CountSome(s[..i], f) < |FilterMap(s, f)|
              && FilterMap(s, f)[CountSome(s[..i], f)] == f(s[i]).value
    decreases |s|
  {
    if s != [] {
      var init, last := s[..|s| - 1], s[|s| - 1];
      FilterMapByRank(init, f);
      forall i | 0 <= i < |s| && f(s[i]).Some?
        ensures CountSome(s[..i], f) < |FilterMap(s, f)|
        ensures FilterMap(s, f)[CountSome(s[..i], f)] == f(s[i]).value
      {
        if i < |init| {
          assert s[..i] == init[..i];
          assert s[i] == init[i];
        } else {
          assert s[..i] == init;
        }
      }
    }
  }

  /** When `f` keeps everything, FilterMap is a plain element-wise map. */
  lemma {:induction false} FilterMapKeepsAll<T, U>(s: seq<T>, f: T -> Option<U>)
    requires forall i :: 0 <= i < |s| ==> f(s[i]).Some?
    ensures |FilterMap(s, f)| == |s|
    ensures forall i :: 0 <= i < |s| ==> FilterMap(s, f)[i] == f(s[i]).value
    decreases |s|
  {
    if s != [] {
      var init := s[..|s| - 1];
      FilterMapKeepsAll(init, f);
    }
  }

  /** What FilterMap yields for a prefix is a prefix of what it yields for the whole. */
  lemma {:induction false} FilterMapPrefix<T, U>(s: seq<T>, f: T -> Option<U>, k: nat)
    requires k <= |s|
    ensures |FilterMap(s[..k], f)| <= |FilterMap(s, f)|
    ensures FilterMap(s[..k], f) == FilterMap(s, f)[..|FilterMap(s[..k], f)|]
    decreases |s|
  {
    if k < |s| {
      var init := s[..|s| - 1];
      assert s[..k] == init[..k];
      FilterMapPrefix(init, f, k);
    } else {
      assert s[..k] == s;
    }
  }
}

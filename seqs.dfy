/** Sequence operations the game state is built on: the JavaScript array
    methods `filter`, `indexOf` and `splice(i, 1)`, stated over Dafny
    sequences. */
module Seqs {

  /** No value occurs twice in `s`. */
  predicate Distinct<T(==)>(s: seq<T>) {
    forall i, j :: 0 <= i < j < |s| ==> s[i] != s[j]
  }

  /** The elements of `s` that `keep` accepts, in their original order. */
  function Filter<T(!new)>(s: seq<T>, keep: T -> bool): (r: seq<T>)
    ensures |r| <= |s|
    decreases |s|
  {
    if s == [] then []
    else (if keep(s[0]) then [s[0]] else []) + Filter(s[1..], keep)
  }

  /** The filtered sequence holds exactly the elements of `s` that `keep`
      accepts. */
  lemma {:induction false} FilterMembers<T(!new)>(s: seq<T>, keep: T -> bool)
    ensures forall x :: x in Filter(s, keep) <==> x in s && keep(x)
    decreases |s|
  {
    if s != [] {
      assert s == [s[0]] + s[1..];
      FilterMembers(s[1..], keep);
    }
  }

  /** In `kept + [x] + rest`, `x` sits at position `|kept|`; splicing it
      out leaves `kept + rest`. */
  lemma SpliceAt<T>(kept: seq<T>, x: T, rest: seq<T>)
    ensures (kept + ([x] + rest))[|kept|] == x
    ensures kept + ([x] + rest) == (kept + [x]) + rest
    ensures (kept + ([x] + rest))[..|kept|] + (kept + ([x] + rest))[|kept| + 1..] == kept + rest
  {
    var t := kept + ([x] + rest);
    assert t[..|kept|] == kept;
    assert t[|kept| + 1..] == rest;
  }

  /** One step of filtering in place: `list` is the part `kept` already
      decided followed by the unvisited `todo`, whose filtered form
      completes `whole`. The first unvisited element is either kept or
      spliced out, and the split moves one place on. */
  lemma FilterStep<T(!new)>(todo: seq<T>, kept: seq<T>, list: seq<T>, whole: seq<T>, keep: T -> bool)
    requires todo != [] && list == kept + todo
    requires kept + Filter(todo, keep) == whole
    ensures list[|kept|] == todo[0]
    ensures keep(todo[0]) ==> list == (kept + [todo[0]]) + todo[1..] &&
                              (kept + [todo[0]]) + Filter(todo[1..], keep) == whole
    ensures !keep(todo[0]) ==> list[..|kept|] + list[|kept| + 1..] == kept + todo[1..] &&
                               kept + Filter(todo[1..], keep) == whole
  {
    var x, rest := todo[0], todo[1..];
    assert todo == [x] + rest;
    SpliceAt(kept, x, rest);
    var f := Filter(rest, keep);
    if keep(x) {
      assert Filter(todo, keep) == [x] + f;
      SpliceAt(kept, x, f);
    } else {
      assert Filter(todo, keep) == f;
    }
  }

  /** Filtering a list that extends `s` keeps every element of `s` that
      passes the test. */
  lemma FilterKeepsPrefix<T(!new)>(s: seq<T>, t: seq<T>, keep: T -> bool)
    requires s <= t
    ensures forall x :: x in s && keep(x) ==> x in Filter(t, keep)
  {
    FilterMembers(t, keep);
    forall x | x in s && keep(x)
      ensures x in Filter(t, keep)
    {
      var i :| 0 <= i < |s| && s[i] == x;
      assert t[i] == x;
    }
  }

  /** The first position of `x` in `s`, or -1 when it does not occur. */
  function IndexOf<T(==)>(s: seq<T>, x: T): (i: int)
    ensures -1 <= i < |s|
    ensures i == -1 <==> x !in s
    ensures 0 <= i ==> s[i] == x && x !in s[..i]
    decreases |s|
  {
    if s == [] then -1
    else if s[0] == x then 0
    else
      var k := IndexOf(s[1..], x);
      assert s == [s[0]] + s[1..];
      if k == -1 then -1
      else
        assert s[..k + 1] == [s[0]] + s[1..][..k];
        k + 1
  }

  /** `s` with the first occurrence of `x` spliced out (unchanged when `x`
      does not occur). */
  function Without<T(==,!new)>(s: seq<T>, x: T): (r: seq<T>)
    ensures x !in s ==> r == s
    ensures x in s ==> |r| == |s| - 1
    ensures forall y :: y != x ==> (y in r <==> y in s)
  {
    var i := IndexOf(s, x);
    if i == -1 then s
    else
      assert s == s[..i] + [x] + s[i + 1..];
      s[..i] + s[i + 1..]
  }

  /** Position `k` of `s` with position `i` spliced out holds the element
      of `s` at `k`, or at `k + 1` once past `i`. */
  lemma SpliceIndex<T>(s: seq<T>, i: nat, k: nat)
    requires i < |s| && k < |s| - 1
    ensures (s[..i] + s[i + 1..])[k] == s[if k < i then k else k + 1]
  {
  }

  /** Splicing out a value of a sequence without repetitions removes it
      entirely and keeps the rest free of repetitions. */
  lemma {:induction false} WithoutDistinct<T(!new)>(s: seq<T>, x: T)
    requires Distinct(s)
    ensures x !in Without(s, x)
    ensures Distinct(Without(s, x))
  {
    var i := IndexOf(s, x);
    if i != -1 {
      var r := Without(s, x);
      assert r == s[..i] + s[i + 1..];
      forall a, c | 0 <= a < c < |r|
        ensures r[a] != r[c]
      {
        SpliceIndex(s, i, a);
        SpliceIndex(s, i, c);
      }
      forall k | 0 <= k < |r|
        ensures r[k] != x
      {
        SpliceIndex(s, i, k);
      }
    }
  }

  /** Appending a new value and then splicing it out gives back the
      original sequence. */
  lemma {:induction false} WithoutAppended<T(!new)>(s: seq<T>, x: T)
    requires x !in s
    ensures Without(s + [x], x) == s
  {
    var t := s + [x];
    assert t[..|s|] == s;
  }
}

/** Generic facts about sequences used across the scanner model. */
module SeqUtil {

  /** Applies `f` to every element and concatenates the results, in order. */
  function FlatMap<A, B>(f: A -> seq<B>, xs: seq<A>): seq<B> {
    if xs == [] then [] else f(xs[0]) + FlatMap(f, xs[1..])
  }

  lemma {:induction false} FlatMapConcat<A, B>(f: A -> seq<B>, xs: seq<A>, ys: seq<A>)
    ensures FlatMap(f, xs + ys) == FlatMap(f, xs) + FlatMap(f, ys)
  {
    if xs == [] {
      assert xs + ys == ys;
    } else {
      assert (xs + ys)[0] == xs[0];
      assert (xs + ys)[1..] == xs[1..] + ys;
      FlatMapConcat(f, xs[1..], ys);
    }
  }

  /** Extending the input by one element extends the flat-map by that element's image. */
  lemma FlatMapSnoc<A, B>(f: A -> seq<B>, xs: seq<A>, k: nat)
    requires k < |xs|
    ensures FlatMap(f, xs[..k + 1]) == FlatMap(f, xs[..k]) + f(xs[k])
  {
    assert xs[..k + 1] == xs[..k] + [xs[k]];
    FlatMapConcat(f, xs[..k], [xs[k]]);
    assert FlatMap(f, [xs[k]]) == f(xs[k]) + FlatMap(f, []);
  }

  /** When `f` yields exactly one element per input, the flat-map holds those elements, position by position. */
  lemma {:induction false} FlatMapSingletons<A, B>(f: A -> seq<B>, xs: seq<A>)
    requires forall x :: x in xs ==> |f(x)| == 1
    ensures |FlatMap(f, xs)| == |xs|
    ensures forall i :: 0 <= i < |xs| ==> FlatMap(f, xs)[i] == f(xs[i])[0]
  {
    if xs != [] {
      assert xs[0] in xs;
      assert forall x :: x in xs[1..] ==> x in xs;
      FlatMapSingletons(f, xs[1..]);
      var r := FlatMap(f, xs);
      assert r == f(xs[0]) + FlatMap(f, xs[1..]);
      forall i | 0 <= i < |xs|
        ensures r[i] == f(xs[i])[0]
      {
        if i > 0 {
          assert r[i] == FlatMap(f, xs[1..])[i - 1];
          assert xs[1..][i - 1] == xs[i];
        }
      }
    }
  }

  /** An element of a flat-map comes from some input element, and everything each input element produces is there. */
  lemma {:induction false} FlatMapMembership<A, B>(f: A -> seq<B>, xs: seq<A>, y: B)
    ensures y in FlatMap(f, xs) <==> exists i :: 0 <= i < |xs| && y in f(xs[i])
  {
    if xs != [] {
      FlatMapMembership(f, xs[1..], y);
      if y in FlatMap(f, xs[1..]) {
        var i :| 0 <= i < |xs[1..]| && y in f(xs[1..][i]);
        assert y in f(xs[i + 1]);
      }
      if exists i :: 0 <= i < |xs| && y in f(xs[i]) {
        var i :| 0 <= i < |xs| && y in f(xs[i]);
        if i > 0 {
          assert y in f(xs[1..][i - 1]);
        }
      }
    }
  }

  /** When `f` yields at most one element per input, each element of the flat-map is the whole image of some input. */
  lemma FlatMapSingletonSource<A, B>(f: A -> seq<B>, xs: seq<A>, y: B)
    requires y in FlatMap(f, xs)
    requires forall i :: 0 <= i < |xs| ==> |f(xs[i])| <= 1
    ensures exists i :: 0 <= i < |xs| && f(xs[i]) == [y]
  {
    FlatMapMembership(f, xs, y);
    var i :| 0 <= i < |xs| && y in f(xs[i]);
    assert f(xs[i]) == [y];
  }

  /** When `f` yields at most one element per input, the flat-map is no longer than the input. */
  lemma {:induction false} FlatMapAtMostOne<A, B>(f: A -> seq<B>, xs: seq<A>)
    requires forall x :: x in xs ==> |f(x)| <= 1
    ensures |FlatMap(f, xs)| <= |xs|
  {
    if xs != [] {
      assert xs[0] in xs;
      assert forall x :: x in xs[1..] ==> x in xs;
      FlatMapAtMostOne(f, xs[1..]);
    }
  }

  /** `sub` can be obtained from `s` by deleting elements. */
  predicate IsSubsequence<T(==)>(sub: seq<T>, s: seq<T>)
    decreases |s|
  {
    if sub == [] then true
    else if s == [] then false
    else (sub[0] == s[0] && IsSubsequence(sub[1..], s[1..])) || IsSubsequence(sub, s[1..])
  }

  /** Every sequence is a subsequence of itself. */
  lemma {:induction false} SubsequenceReflexive<T>(s: seq<T>)
    ensures IsSubsequence(s, s)
  {
    if s != [] {
      SubsequenceReflexive(s[1..]);
    }
  }

  /** Nothing is lost by appending extra elements after a subsequence's host. */
  lemma {:induction false} SubsequenceOfLonger<T>(sub: seq<T>, s: seq<T>, extra: seq<T>)
    requires IsSubsequence(sub, s)
    ensures IsSubsequence(sub, s + extra)
    decreases |s|
  {
    if sub != [] {
      assert (s + extra)[0] == s[0];
      assert (s + extra)[1..] == s[1..] + extra;
      if sub[0] == s[0] && IsSubsequence(sub[1..], s[1..]) {
        SubsequenceOfLonger(sub[1..], s[1..], extra);
      } else {
        SubsequenceOfLonger(sub, s[1..], extra);
      }
    }
  }

  /** Subsequences can be concatenated piecewise. */
  lemma {:induction false} SubsequenceConcat<T>(a: seq<T>, s: seq<T>, b: seq<T>, t: seq<T>)
    requires IsSubsequence(a, s) && IsSubsequence(b, t)
    ensures IsSubsequence(a + b, s + t)
    decreases |s|
  {
    if a == [] {
      assert a + b == b;
      SubsequenceAfter(b, t, s);
    } else {
      assert (a + b)[0] == a[0] && (a + b)[1..] == a[1..] + b;
      assert (s + t)[0] == s[0] && (s + t)[1..] == s[1..] + t;
      if a[0] == s[0] && IsSubsequence(a[1..], s[1..]) {
        SubsequenceConcat(a[1..], s[1..], b, t);
      } else {
        SubsequenceConcat(a, s[1..], b, t);
      }
    }
  }

  /** Nothing is lost by putting extra elements before a subsequence's host. */
  lemma {:induction false} SubsequenceAfter<T>(sub: seq<T>, s: seq<T>, extra: seq<T>)
    requires IsSubsequence(sub, s)
    ensures IsSubsequence(sub, extra + s)
    decreases |extra|
  {
    if extra != [] {
      assert (extra + s)[1..] == extra[1..] + s;
      SubsequenceAfter(sub, s, extra[1..]);
      if sub != [] {
        assert extra + s != [];
      }
    } else {
      assert extra + s == s;
    }
  }

  /** Concatenation is associative (stated for the solver, which does not always find it). */
  lemma AppendAssociative<T>(a: seq<T>, b: seq<T>, c: seq<T>)
    ensures (a + b) + c == a + (b + c)
  {
  }
}

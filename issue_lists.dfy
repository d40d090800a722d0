/**
 * Lists of results built by loops that extend an accumulator and let the
 * first exception escape: the shape of `analyze` and `scan`.
 */
module IssueLists {
  import opened Wrappers
  import opened SeqUtil

  /** `a`, then `b` appended; the first exception raised wins and nothing after it runs. */
  function Then<U>(a: Result<seq<U>>, b: Result<seq<U>>): (r: Result<seq<U>>)
    ensures r.Ok? <==> a.Ok? && b.Ok?
    ensures a.Raised? ==> r == a
    ensures a.Ok? && b.Raised? ==> r == b
    ensures r.Ok? ==> |r.value| == |a.value| + |b.value|
  {
    match a
    case Raised(_) => a
    case Ok(x) =>
      match b
      case Raised(_) => b
      case Ok(y) => Ok(x + y)
  }

  /** A loop over `xs` that appends the results of `f` in order, stopping at the first exception. */
  function Collect<T, U>(f: T -> Result<seq<U>>, xs: seq<T>): Result<seq<U>>
    decreases |xs|
  {
    if xs == [] then Ok([])
    else Then(Collect(f, xs[..|xs| - 1]), f(xs[|xs| - 1]))
  }

  /** One more turn of the loop. */
  lemma CollectStep<T, U>(f: T -> Result<seq<U>>, xs: seq<T>, j: nat)
    requires j < |xs|
    ensures Collect(f, xs[..j + 1]) == Then(Collect(f, xs[..j]), f(xs[j]))
  {
    assert xs[..j + 1][..j] == xs[..j];
  }

  /** Once a prefix has raised, the whole loop raises the same exception. */
  lemma {:induction false} CollectRaisedPrefix<T, U>(f: T -> Result<seq<U>>, xs: seq<T>, i: nat)
    requires i <= |xs| && Collect(f, xs[..i]).Raised?
    ensures Collect(f, xs) == Collect(f, xs[..i])
    decreases |xs| - i
  {
    if i < |xs| {
      CollectStep(f, xs, i);
      CollectRaisedPrefix(f, xs, i + 1);
    } else {
      assert xs[..i] == xs;
    }
  }

  /** `Then` is associative, so the grouping of the appends does not matter. */
  lemma ThenAssociative<U>(a: Result<seq<U>>, b: Result<seq<U>>, c: Result<seq<U>>)
    ensures Then(Then(a, b), c) == Then(a, Then(b, c))
  {
    if a.Ok? && b.Ok? && c.Ok? {
      AppendAssociative(a.value, b.value, c.value);
    }
  }

  /** Looping over two lists one after the other is looping over their concatenation. */
  lemma {:induction false} CollectConcat<T, U>(f: T -> Result<seq<U>>, xs: seq<T>, ys: seq<T>)
    ensures Collect(f, xs + ys) == Then(Collect(f, xs), Collect(f, ys))
    decreases |ys|
  {
    if ys == [] {
      assert xs + ys == xs;
      var c := Collect(f, xs);
      if c.Ok? {
        assert c.value + [] == c.value;
      }
    } else {
      var n := |ys| - 1;
      assert (xs + ys)[..|xs + ys| - 1] == xs + ys[..n];
      assert (xs + ys)[|xs + ys| - 1] == ys[n];
      CollectConcat(f, xs, ys[..n]);
      ThenAssociative(Collect(f, xs), Collect(f, ys[..n]), f(ys[n]));
    }
  }

  /** A loop over a single element is that element's result. */
  lemma CollectOne<T, U>(f: T -> Result<seq<U>>, x: T)
    ensures Collect(f, [x]) == f(x)
  {
    assert [x][..0] == [];
    var r := f(x);
    if r.Ok? {
      assert [] + r.value == r.value;
    }
  }

  /** A loop over `[a]` completes whenever the loop over `[a, b]` does, and yields a subsequence of it. */
  lemma CollectPrefixOfPair<T, U>(f: T -> Result<seq<U>>, a: T, b: T)
    requires Collect(f, [a, b]).Ok?
    ensures Collect(f, [a]).Ok?
    ensures IsSubsequence(Collect(f, [a]).value, Collect(f, [a, b]).value)
  {
    CollectOne(f, a);
    CollectStep(f, [a, b], 1);
    assert [a, b][..1] == [a];
    assert [a, b][..2] == [a, b];
    SubsequenceReflexive(f(a).value);
    SubsequenceOfLonger(f(a).value, f(a).value, f(b).value);
  }
}

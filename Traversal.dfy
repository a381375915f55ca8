/** A loop over a list that handles every element in turn and stops at the
    first element whose handling raises: the shape shared by both passes of
    the ticket builder. */
module Traversal {
  import opened Wrappers

  /** The results of `f` on every element, or the error of the first element
      on which `f` fails. */
  function Traverse<T, U, E>(xs: seq<T>, f: T -> Result<U, E>): (r: Result<seq<U>, E>)
    ensures r.Ok? ==> |r.value| == |xs|
  {
    if xs == [] then Ok([])
    else
      match Traverse(xs[..|xs| - 1], f)
      case Err(e) => Err(e)
      case Ok(us) =>
        match f(xs[|xs| - 1])
        case Err(e) => Err(e)
        case Ok(u) => Ok(us + [u])
  }

  lemma TraverseStep<T, U, E>(xs: seq<T>, f: T -> Result<U, E>)
    requires xs != [] && Traverse(xs, f).Ok?
    ensures Traverse(xs[..|xs| - 1], f).Ok? && f(xs[|xs| - 1]).Ok?
    ensures Traverse(xs, f).value == Traverse(xs[..|xs| - 1], f).value + [f(xs[|xs| - 1]).value]
  {
  }

  /** A loop over one element gives that element's result. */
  lemma TraverseOne<T, U, E>(x: T, f: T -> Result<U, E>)
    ensures Traverse([x], f) == match f(x) case Ok(u) => Ok([u]) case Err(e) => Err(e)
  {
    var xs := [x];
    assert xs[..|xs| - 1] == [] && xs[|xs| - 1] == x;
    assert Traverse(xs[..|xs| - 1], f) == Ok([]);
    if f(x).Ok? {
      assert [] + [f(x).value] == [f(x).value];
    }
  }

  /** When the loop succeeds, result `i` is what element `i` gives. */
  lemma {:induction false} TraverseEach<T, U, E>(xs: seq<T>, f: T -> Result<U, E>, i: nat)
    requires Traverse(xs, f).Ok? && i < |xs|
    ensures f(xs[i]) == Ok(Traverse(xs, f).value[i])
  {
    var init := xs[..|xs| - 1];
    TraverseStep(xs, f);
    if i < |init| {
      TraverseEach(init, f, i);
    }
  }

  /** When the loop fails, it fails with the error of the first element
      that fails. */
  lemma {:induction false} TraverseFault<T, U, E>(xs: seq<T>, f: T -> Result<U, E>)
    requires Traverse(xs, f).Err?
    ensures exists i :: (0 <= i < |xs| && f(xs[i]) == Err(Traverse(xs, f).error) &&
      forall k :: 0 <= k < i ==> f(xs[k]).Ok?)
  {
    var init := xs[..|xs| - 1];
    if Traverse(init, f).Err? {
      TraverseFault(init, f);
      var i :| 0 <= i < |init| && f(init[i]) == Err(Traverse(init, f).error) &&
        forall k :: 0 <= k < i ==> f(init[k]).Ok?;
      assert forall k :: 0 <= k <= i ==> init[k] == xs[k];
    } else {
      forall k | 0 <= k < |init|
        ensures f(xs[k]).Ok?
      {
        TraverseEach(init, f, k);
        assert init[k] == xs[k];
      }
    }
  }

  /** A failure on a prefix is the failure of the whole loop. */
  lemma {:induction false} TraverseErrPrefix<T, U, E>(xs: seq<T>, f: T -> Result<U, E>, k: nat)
    requires k <= |xs| && Traverse(xs[..k], f).Err?
    ensures Traverse(xs, f) == Traverse(xs[..k], f)
    decreases |xs| - k
  {
    if k < |xs| {
      assert xs[..k + 1][..k] == xs[..k];
      TraverseErrPrefix(xs, f, k + 1);
    } else {
      assert xs[..k] == xs;
    }
  }

  /** The list after a loop that rewrites each element in place to
      `g` of its result: rewritten up to the first failure, untouched from
      there on. */
  function UpdatedUpTo<T, U, E>(xs: seq<T>, f: T -> Result<U, E>, g: U -> T): (r: seq<T>)
    ensures |r| == |xs|
  {
    if xs == [] then []
    else
      var init, last := xs[..|xs| - 1], xs[|xs| - 1];
      UpdatedUpTo(init, f, g) +
        [if Traverse(init, f).Ok? && f(last).Ok? then g(f(last).value) else last]
  }

  lemma UpdatedStep<T, U, E>(xs: seq<T>, f: T -> Result<U, E>, g: U -> T, i: nat)
    requires i < |xs| && Traverse(xs[..i], f).Ok? && f(xs[i]).Ok?
    ensures UpdatedUpTo(xs[..i + 1], f, g) == UpdatedUpTo(xs[..i], f, g) + [g(f(xs[i]).value)]
  {
    assert xs[..i + 1][..i] == xs[..i];
  }

  /** After a successful loop every element has been rewritten. */
  lemma {:induction false} UpdatedAll<T, U, E>(xs: seq<T>, f: T -> Result<U, E>, g: U -> T, i: nat)
    requires Traverse(xs, f).Ok? && i < |xs|
    ensures UpdatedUpTo(xs, f, g)[i] == g(Traverse(xs, f).value[i])
  {
    var init := xs[..|xs| - 1];
    TraverseStep(xs, f);
    if i < |init| {
      UpdatedAll(init, f, g, i);
    }
  }

  /** From the first failing element on, nothing is rewritten. */
  lemma {:induction false} UpdatedAfterFault<T, U, E>(xs: seq<T>, f: T -> Result<U, E>, g: U -> T, k: nat)
    requires k < |xs| && Traverse(xs[..k], f).Ok? && f(xs[k]).Err?
    ensures UpdatedUpTo(xs, f, g) == UpdatedUpTo(xs[..k], f, g) + xs[k..]
    decreases |xs|
  {
    var init, last := xs[..|xs| - 1], xs[|xs| - 1];
    if k < |init| {
      assert init[..k] == xs[..k] && init[k] == xs[k];
      UpdatedAfterFault(init, f, g, k);
      assert xs[..k + 1][..k] == xs[..k];
      TraverseErrPrefix(init, f, k + 1);
      assert init[..k + 1] == xs[..k + 1];
      assert xs[k..] == init[k..] + [last];
    } else {
      assert init == xs[..k];
    }
  }

  /** Writing the element just past a prefix moves the seam by one. */
  lemma WriteAtSeam<T>(a: seq<T>, b: seq<T>, v: T)
    requires b != []
    ensures (a + b)[|a| := v] == (a + [v]) + b[1..]
  {
  }
}

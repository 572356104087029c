/** Pass/fail and value/failure wrappers, and the "check every element in
    order, first failure wins" combinator that the range, dimension and
    dict checks of the parameter checker are built from. */
module Outcomes {

  /** The result of a check that produces no value: it passes or it raises. */
  datatype Outcome<+E> = Pass | Fail(error: E)

  /** The result of a computation that produces a value or raises. */
  datatype Result<+T, +E> = Success(value: T) | Failure(error: E)

  /** Runs `check` on each element of `xs` from left to right and stops at
      the first failure, as a Python `for` loop that raises does. */
  function CheckAll<T, E>(xs: seq<T>, check: T -> Outcome<E>): (r: Outcome<E>)
    ensures r.Pass? <==> forall k :: 0 <= k < |xs| ==> check(xs[k]).Pass?
    ensures r.Fail? ==> exists k :: 0 <= k < |xs| && check(xs[k]) == r
  {
    if |xs| == 0 then Pass
    else
      match check(xs[0])
      case Fail(e) => Fail(e)
      case Pass =>
        var rest := CheckAll(xs[1..], check);
        assert forall k :: 1 <= k < |xs| ==> xs[k] == xs[1..][k - 1];
        rest
  }

  /** The error reported is that of the first element that fails. */
  lemma {:induction false} CheckAllFirstFailure<T, E>(xs: seq<T>, check: T -> Outcome<E>, k: int)
    requires 0 <= k < |xs|
    requires forall j :: 0 <= j < k ==> check(xs[j]).Pass?
    requires check(xs[k]).Fail?
    ensures CheckAll(xs, check) == check(xs[k])
  {
    if k > 0 {
      assert check(xs[0]).Pass?;
      assert forall j :: 0 <= j < k - 1 ==> xs[1..][j] == xs[j + 1];
      CheckAllFirstFailure(xs[1..], check, k - 1);
    }
  }

  /** Replacing an element by one the check judges identically leaves the
      outcome of the whole run unchanged. */
  lemma {:induction false} CheckAllReplace<T, E>(xs: seq<T>, check: T -> Outcome<E>, k: int, y: T)
    requires 0 <= k < |xs|
    requires check(y) == check(xs[k])
    ensures CheckAll(xs[k := y], check) == CheckAll(xs, check)
  {
    var ys := xs[k := y];
    if k == 0 {
      assert ys[1..] == xs[1..];
    } else {
      assert ys[0] == xs[0];
      assert ys[1..] == xs[1..][k - 1 := y];
      CheckAllReplace(xs[1..], check, k - 1, y);
    }
  }
}

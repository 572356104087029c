/** `check_tensor_shape_size`: the number of elements of a tensor, as the
    product of its dimensions folded with `functools.reduce`. */
module ShapeSize {
  import opened Outcomes
  import opened ParaCommon

  /** The product of all dimensions; 1 for no dimensions. */
  function Product(shape: seq<int>): (p: int) {
    if |shape| == 0 then 1 else shape[0] * Product(shape[1..])
  }

  /** Appending a dimension multiplies the product by it. */
  lemma {:induction false} ProductAppend(shape: seq<int>, d: int)
    ensures Product(shape + [d]) == Product(shape) * d
  {
    if |shape| == 0 {
      assert [] + [d] == [d];
    } else {
      assert (shape + [d])[1..] == shape[1..] + [d];
      ProductAppend(shape[1..], d);
    }
  }

  /** `check_tensor_shape_size(shape)`: `reduce(lambda x, y: x * y, shape)`
      multiplies from the left; with no initial value an empty shape raises
      a TypeError. */
  method CheckTensorShapeSize(shape: seq<int>) returns (r: Result<int, Error>)
    ensures |shape| == 0 <==> r == Failure(PyTypeError)
    ensures |shape| > 0 ==> r == Success(Product(shape))
  {
    if |shape| == 0 {
      return Failure(PyTypeError);
    }
    var acc := shape[0];
    var i := 1;
    assert shape[..1] == [shape[0]];
    while i < |shape|
      invariant 1 <= i <= |shape|
      invariant acc == Product(shape[..i])
    {
      assert shape[..i + 1] == shape[..i] + [shape[i]];
      ProductAppend(shape[..i], shape[i]);
      acc := acc * shape[i];
      i := i + 1;
    }
    assert shape[..i] == shape;
    return Success(acc);
  }

  /** A shape holds no elements exactly when one of its dimensions is zero. */
  lemma {:induction false} ProductZeroIff(shape: seq<int>)
    ensures Product(shape) == 0 <==> exists k :: 0 <= k < |shape| && shape[k] == 0
  {
    if |shape| > 0 {
      ProductZeroIff(shape[1..]);
      if exists k :: 0 <= k < |shape[1..]| && shape[1..][k] == 0 {
        var k :| 0 <= k < |shape[1..]| && shape[1..][k] == 0;
        assert shape[k + 1] == 0;
      }
      if exists k :: 0 <= k < |shape| && shape[k] == 0 {
        var k :| 0 <= k < |shape| && shape[k] == 0;
        if k > 0 { assert shape[1..][k - 1] == 0; }
      }
    }
  }

  /** With every dimension positive the product is at least each dimension. */
  lemma {:induction false} ProductBoundsDims(shape: seq<int>, k: int)
    requires forall j :: 0 <= j < |shape| ==> shape[j] > 0
    requires 0 <= k < |shape|
    ensures Product(shape) >= shape[k] > 0
  {
    ProductPositive(shape[1..]);
    if k > 0 {
      ProductBoundsDims(shape[1..], k - 1);
    }
  }

  lemma {:induction false} ProductPositive(shape: seq<int>)
    requires forall j :: 0 <= j < |shape| ==> shape[j] > 0
    ensures Product(shape) > 0
  {
    if |shape| > 0 {
      ProductPositive(shape[1..]);
    }
  }
}

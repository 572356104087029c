/** `_check_range`: validation of the per-dimension range list that comes
    with a dynamic shape. Each entry is a pair `(lo, hi)` of ints, or
    `(lo, None)` for a dimension with no upper bound. */
module CheckRange {
  import opened Outcomes
  import opened PyValue
  import opened ParaCommon

  /** The ranges the check accepts: exactly two entries, an int lower
      bound, and either no upper bound and a positive lower bound, or an
      int upper bound that is not below the lower bound; everything
      within `[0, maxShapeNum]`. */
  predicate ValidRangeElem(e: Value, maxShapeNum: int) {
    && e.HasLen()
    && |e.Items()| == 2
    && e.Items()[0].VInt?
    && var lo := e.Items()[0].i;
       var hi := e.Items()[1];
       || (hi.VNone? && 0 < lo <= maxShapeNum)
       || (hi.VInt? && 0 <= lo <= hi.i <= maxShapeNum)
  }

  /** The body of the loop over `shape_range`, for one entry. */
  function CheckRangeElem(e: Value, maxShapeNum: int): (r: Outcome<Error>)
    ensures r.Pass? <==> ValidRangeElem(e, maxShapeNum)
    // an entry without a length is rejected by `len` itself
    ensures !e.HasLen() ==> r == Fail(PyTypeError)
    // an unbounded range: accepted iff the lower bound is positive and at most the maximum
    ensures e.HasLen() && |e.Items()| == 2 && e.Items()[0].VInt? && e.Items()[1].VNone? ==>
              (r.Pass? <==> 0 < e.Items()[0].i <= maxShapeNum) &&
              (r.Fail? ==> r == Fail(ParamTypeError("int", "NoneType")))
    // a lower bound that is not an int is a type error, whatever follows it
    ensures e.HasLen() && |e.Items()| >= 1 && !e.Items()[0].VInt? ==>
              r == Fail(ParamTypeError("int", e.Items()[0].TypeName()))
    // an upper bound that is neither an int nor None is a type error
    ensures e.HasLen() && |e.Items()| >= 2 && e.Items()[0].VInt? &&
            !e.Items()[1].VInt? && !e.Items()[1].VNone? ==>
              r == Fail(ParamTypeError("int", e.Items()[1].TypeName()))
    // a None upper bound followed by more entries is a type error on the upper bound
    ensures e.HasLen() && |e.Items()| > 2 && e.Items()[0].VInt? && e.Items()[1].VNone? ==>
              r == Fail(ParamTypeError("int", "NoneType"))
    // fewer than two entries: an IndexError, unless the first entry is already not an int
    ensures e.HasLen() && |e.Items()| == 0 ==> r == Fail(PyIndexError)
    ensures e.HasLen() && |e.Items()| == 1 && e.Items()[0].VInt? ==> r == Fail(PyIndexError)
    // two int bounds followed by more entries: not a pair
    ensures e.HasLen() && |e.Items()| > 2 && e.Items()[0].VInt? && e.Items()[1].VInt? ==>
              r == Fail(RangeNotPairError)
    // an int pair: accepted iff 0 <= lo <= hi <= maxShapeNum, else reported with both bounds
    ensures e.HasLen() && |e.Items()| == 2 && e.Items()[0].VInt? && e.Items()[1].VInt? ==>
              var lo, hi := e.Items()[0].i, e.Items()[1].i;
              r == (if 0 <= lo <= hi <= maxShapeNum then Pass
                    else Fail(RangeValueError(lo, hi, maxShapeNum)))
  {
    if !e.HasLen() then Fail(PyTypeError)
    else
      var xs := e.Items();
      if |xs| == 2 && xs[1].VNone? && xs[0].VInt? && 0 < xs[0].i <= maxShapeNum then Pass
      else if |xs| == 0 then Fail(PyIndexError)
      else if !xs[0].VInt? then Fail(ParamTypeError("int", xs[0].TypeName()))
      else if |xs| == 1 then Fail(PyIndexError)
      else if !xs[1].VInt? then Fail(ParamTypeError("int", xs[1].TypeName()))
      else if |xs| != 2 then Fail(RangeNotPairError)
      else if 0 <= xs[0].i <= xs[1].i <= maxShapeNum then Pass
      else Fail(RangeValueError(xs[0].i, xs[1].i, maxShapeNum))
  }

  /** `_check_range(shape, shape_range, min_dim, max_dim, max_shape_num)`.
      Only the length of `shape` is read; `minDim` and `maxDim` are
      accepted and never read. */
  function CheckRange(shape: seq<int>, shapeRange: Value, minDim: int := 0,
                      maxDim: int := RANK_LIMIT,
                      maxShapeNum: int := MAX_UNKNOWN_SHAPE_NUM): (r: Outcome<Error>)
    // the container type is checked before anything else
    ensures !shapeRange.IsListOrTuple() ==>
              r == Fail(ParamTypeError("list tuple", shapeRange.TypeName()))
    // then the lengths, before any entry is looked at
    ensures shapeRange.IsListOrTuple() && |shape| != |shapeRange.elems| ==>
              r == Fail(ShapeRangeLengthError(|shape|, |shapeRange.elems|))
    // accepted exactly when the lengths agree and every entry is a valid range
    ensures r.Pass? <==>
              && shapeRange.IsListOrTuple()
              && |shape| == |shapeRange.elems|
              && forall k :: 0 <= k < |shapeRange.elems| ==>
                   ValidRangeElem(shapeRange.elems[k], maxShapeNum)
  {
    if !shapeRange.IsListOrTuple() then
      Fail(ParamTypeError("list tuple", shapeRange.TypeName()))
    else if |shape| != |shapeRange.elems| then
      Fail(ShapeRangeLengthError(|shape|, |shapeRange.elems|))
    else
      CheckAll(shapeRange.elems, e => CheckRangeElem(e, maxShapeNum))
  }

  /** When the container and the lengths are right, the error reported is
      that of the first entry that is not a valid range. */
  lemma CheckRangeFirstFailure(shape: seq<int>, shapeRange: Value, minDim: int, maxDim: int,
                               maxShapeNum: int, k: int)
    requires shapeRange.IsListOrTuple() && |shape| == |shapeRange.elems|
    requires 0 <= k < |shapeRange.elems|
    requires forall j :: 0 <= j < k ==> ValidRangeElem(shapeRange.elems[j], maxShapeNum)
    requires !ValidRangeElem(shapeRange.elems[k], maxShapeNum)
    ensures CheckRange(shape, shapeRange, minDim, maxDim, maxShapeNum) ==
            CheckRangeElem(shapeRange.elems[k], maxShapeNum)
  {
    CheckAllFirstFailure(shapeRange.elems, e => CheckRangeElem(e, maxShapeNum), k);
  }

  /** `min_dim` and `max_dim` never affect the outcome. */
  lemma CheckRangeIgnoresDimBounds(shape: seq<int>, shapeRange: Value, minDim: int, maxDim: int,
                                   minDim': int, maxDim': int, maxShapeNum: int)
    ensures CheckRange(shape, shapeRange, minDim, maxDim, maxShapeNum) ==
            CheckRange(shape, shapeRange, minDim', maxDim', maxShapeNum)
  {
  }

  /** With the default maximum, `(lo, None)` is accepted exactly for
      `0 < lo <= 2**31 - 1`. */
  lemma DefaultUnboundedRange(lo: int)
    ensures CheckRange([-1], VList([VTuple([VInt(lo), VNone])])).Pass? <==> 0 < lo <= 0x7FFF_FFFF
  {
    assert VTuple([VInt(lo), VNone]).Items() == [VInt(lo), VNone];
  }
}

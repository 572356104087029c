/** `_check_shape_range` and `_check_dynamic_shape`: the rank and per-dimension
    bounds of a shape in which `-1` stands for a dimension not known until
    run time. */
module CheckShape {
  import opened Outcomes
  import opened ParaCommon

  /** A dimension the dynamic check accepts: one in `[-1, maxDim]`, that is
      `-1` for an unknown size or a known size up to `maxDim` (none when
      `maxDim < -1`). */
  predicate ValidDim(d: int, maxDim: int) {
    -1 <= d <= maxDim
  }

  /** `_check_shape_range(max_rank, min_rank, param_name, shape)` */
  function CheckShapeRank(maxRank: int, minRank: int, shape: seq<int>): (r: Outcome<Error>)
    ensures r.Pass? <==> minRank <= |shape| <= maxRank
    ensures r.Fail? ==> r.error == RankError(minRank, maxRank, |shape|)
  {
    if |shape| < minRank || |shape| > maxRank then Fail(RankError(minRank, maxRank, |shape|))
    else Pass
  }

  /** The body of the loop over the dimensions, for one dimension. */
  function CheckDim(d: int, maxDim: int): (r: Outcome<Error>)
    ensures r.Pass? <==> ValidDim(d, maxDim)
    ensures r.Fail? ==> r.error == DimValueError(maxDim, d)
  {
    if -1 <= d <= maxDim then Pass else Fail(DimValueError(maxDim, d))
  }

  /** `_check_dynamic_shape(shape, max_dim, max_rank)` */
  function CheckDynamicShape(shape: seq<int>, maxDim: int := DIM_LIMIT,
                             maxRank: int := RANK_LIMIT): (r: Outcome<Error>)
    // accepted exactly when the rank is in range and every dimension is in [-1, maxDim]
    ensures r.Pass? <==>
              && |shape| <= maxRank
              && forall k :: 0 <= k < |shape| ==> ValidDim(shape[k], maxDim)
    // the rank is checked before any dimension
    ensures |shape| > maxRank ==> r == Fail(RankError(MIN_UNKNOWN_SHAPE_RANK, maxRank, |shape|))
    // a dimension failure names one of the shape's dimensions
    ensures r.Fail? && |shape| <= maxRank ==>
              exists k :: 0 <= k < |shape| && r == Fail(DimValueError(maxDim, shape[k]))
  {
    match CheckShapeRank(maxRank, MIN_UNKNOWN_SHAPE_RANK, shape)
    case Fail(e) => Fail(e)
    case Pass => CheckAll(shape, d => CheckDim(d, maxDim))
  }

  /** Within the rank limit, the dimension reported is the first one out of
      range. */
  lemma CheckDynamicShapeFirstBadDim(shape: seq<int>, maxDim: int, maxRank: int, k: int)
    requires |shape| <= maxRank
    requires 0 <= k < |shape|
    requires forall j :: 0 <= j < k ==> ValidDim(shape[j], maxDim)
    requires !ValidDim(shape[k], maxDim)
    ensures CheckDynamicShape(shape, maxDim, maxRank) == Fail(DimValueError(maxDim, shape[k]))
  {
    CheckAllFirstFailure(shape, d => CheckDim(d, maxDim), k);
  }

  /** With the default limits: at most eight dimensions, each -1 or in
      `[0, 2**31 - 1]`. */
  lemma DefaultDynamicShape(shape: seq<int>)
    ensures CheckDynamicShape(shape).Pass? <==>
              |shape| <= 8 && forall k :: 0 <= k < |shape| ==> -1 <= shape[k] <= 0x7FFF_FFFF
  {
  }
}

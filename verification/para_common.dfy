/** Limits shared by the checks, and the exceptions the parameter checker
    raises: the operator error codes it reports through `RuntimeError`, with
    the values it reports alongside, and the two Python built-in errors that
    the range check and the shape size can run into. */
module ParaCommon {

  /** `RANK_LIMIT`: the most dimensions a shape may have. */
  const RANK_LIMIT: int := 8
  /** `DIM_LIMIT`: the largest dimension a shape may have (`2**31 - 1`). */
  const DIM_LIMIT: int := 0x7FFF_FFFF
  /** `MAX_UNKNOWN_SHAPE_NUM`: the largest bound a range may name (`2**31 - 1`). */
  const MAX_UNKNOWN_SHAPE_NUM: int := 0x7FFF_FFFF
  /** `MIN_UNKNOWN_SHAPE_RANK`: the fewest dimensions a dynamic shape may have. */
  const MIN_UNKNOWN_SHAPE_RANK: int := 0

  datatype Error =
    | ParamTypeError(expected: string, actual: string)          // E80003
    | ShapeRangeLengthError(shapeLen: nat, rangeLen: nat)       // E80021
    | RangeValueError(first: int, second: int, maxValue: int)   // E80022
    | RangeNotPairError                                         // E80023
    | RankError(minRank: int, maxRank: int, rank: nat)          // E80012
    | DimValueError(maxDim: int, dim: int)                      // E80002
    | DictValueTypeError(key: string, actual: string)           // E60037
    | DictKeyError(key: string)                                 // E60038
    | PyIndexError   // a Python IndexError: an entry that is not there was indexed
    | PyTypeError    // a Python TypeError: `len` or `reduce` applied where it cannot be
  {
    /** Raised by the checker itself, as opposed to by the Python runtime. */
    predicate IsOpError() {
      !PyIndexError? && !PyTypeError?
    }

    /** The `errCode` the checker puts in its error record. */
    function Code(): (c: string)
      requires IsOpError()
      ensures |c| == 6 && c[0] == 'E'
    {
      match this
      case ParamTypeError(_, _) => "E80003"
      case ShapeRangeLengthError(_, _) => "E80021"
      case RangeValueError(_, _, _) => "E80022"
      case RangeNotPairError => "E80023"
      case RankError(_, _, _) => "E80012"
      case DimValueError(_, _) => "E80002"
      case DictValueTypeError(_, _) => "E60037"
      case DictKeyError(_) => "E60038"
    }
  }

  /** Each operator error code names one kind of failure. */
  lemma CodesIdentifyKind(e1: Error, e2: Error)
    requires e1.IsOpError() && e2.IsOpError()
    requires e1.Code() == e2.Code()
    ensures e1.ParamTypeError? == e2.ParamTypeError?
    ensures e1.ShapeRangeLengthError? == e2.ShapeRangeLengthError?
    ensures e1.RangeValueError? == e2.RangeValueError?
    ensures e1.RangeNotPairError? == e2.RangeNotPairError?
    ensures e1.RankError? == e2.RankError?
    ensures e1.DimValueError? == e2.DimValueError?
    ensures e1.DictValueTypeError? == e2.DictValueTypeError?
    ensures e1.DictKeyError? == e2.DictKeyError?
  {
  }
}

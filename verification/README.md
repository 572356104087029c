# Parameter checks of the TBE operator utilities, in Dafny

This project models the local validators of `para_check.py`. That module is
the parameter-checking helper of the TBE tensor-operator toolchain. Most of
its public functions forward to an external library. Four private
validators and the public `check_tensor_shape_size` do their own work, and
they are what is modelled here:

- `_check_range` checks the range list that accompanies a dynamic shape: one
  `(lo, hi)` or `(lo, None)` per dimension.
- `_check_shape_range` and `_check_dynamic_shape` check the rank of a shape
  and that every dimension lies in `[-1, max_dim]`. Here `-1` means a
  dimension whose size is unknown until run time.
- `_check_input_type_dict` checks the keys of a tensor-descriptor dict and
  the types of its `shape` and `dtype` values.
- `check_tensor_shape_size` returns the product of all dimensions.

The four checks (`_check_range`, `_check_shape_range`,
`_check_dynamic_shape` and `_check_input_type_dict`) are total decision
procedures. Each either returns or raises an error carrying one of the codes
`E80003`, `E80021`, `E80022`, `E80023`, `E80012`, `E80002`, `E60037` and
`E60038`. The order in which its checks fire decides which code is reported.
`_check_range` can also raise Python's own `IndexError` or `TypeError` for a
malformed entry, as described below. `check_tensor_shape_size` validates
nothing: it returns the product of the dimensions, and raises Python's
`TypeError` for an empty shape.

Layout:

- `outcomes.dfy` (`Outcomes`) holds `Outcome` (pass or raise) and `Result`
  (a value or raise). It also holds `CheckAll`, the "check each element in
  order and stop at the first failure" loop that the range, dimension and
  dict checks share, with its lemmas.
- `py_value.dfy` (`PyValue`) holds the dynamically typed Python values the
  checks inspect: int, `None`, str, list, tuple and "anything else".
- `para_common.dfy` (`ParaCommon`) holds the limits `RANK_LIMIT`,
  `DIM_LIMIT`, `MAX_UNKNOWN_SHAPE_NUM` and `MIN_UNKNOWN_SHAPE_RANK`. It also
  holds the error datatype. Each error carries its code and the values the
  source reports with it.
- `check_range.dfy`, `check_shape.dfy`, `check_input_dict.dfy` and
  `shape_size.dfy` hold one source function each, except `check_shape.dfy`,
  which holds `_check_shape_range` and `_check_dynamic_shape`.

The Python defaults for `min_dim`, `max_dim`, `max_shape_num` and `max_rank`
are kept as Dafny default parameter values.

One detail of `_check_range` is easy to miss: `range_i[0]` and
`range_i[1]` are indexed before the length of the entry is checked. So an
entry with fewer than two items raises Python's `IndexError`, unless its
first item is already not an int. In that case `E80003` is raised first.
The model gives `IndexError` its own error value, `PyIndexError`. An entry that has no length at all (an int, `None`)
makes `len` raise `TypeError`, modelled as `PyTypeError`.

## Model

| member | source | states |
|---|---|---|
| Outcomes.CheckAll | auto_schedule/python/lang/utils/para_check.py:194-245 | A loop of checks passes iff every element passes. When it fails, the error is that of some element. |
| Outcomes.CheckAllFirstFailure | auto_schedule/python/lang/utils/para_check.py:194-245 | The error a loop of checks reports is that of the first element that fails. |
| ParaCommon.Error.Code | auto_schedule/python/lang/utils/para_check.py:172-375 | The `errCode` each raise site sets: `E80003` for a wrong type, `E80021` for a length mismatch, `E80022` for a bad int range, `E80023` for an entry that is not a pair, `E80012` for a bad rank, `E80002` for a bad dimension, `E60037` for a mistyped dict value and `E60038` for an unknown dict key. Each is a six-character `E` code. |
| ParaCommon.CodesIdentifyKind | auto_schedule/python/lang/utils/para_check.py:84-111 | Each error code the checker reports stands for exactly one kind of failure. The `E80xxx` codes are the constants defined here. `E60037` and `E60038` are string literals at lines 349 and 362. |
| PyValue.Value.Items | auto_schedule/python/lang/utils/para_check.py:195-230 | `len(range_i)`, `range_i[0]` and `range_i[1]` on a list, tuple or str. A list or tuple gives its own elements. A str gives one one-character string per character, of the same length. |
| CheckRange.CheckRangeElem | auto_schedule/python/lang/utils/para_check.py:194-245 | Accepts one range entry exactly when it is a valid range. `(lo, None)` is accepted iff `0 < lo <= max_shape_num`. Any other `None` upper bound after an int lower bound gets `E80003` with type `NoneType`. That includes `(0, None)`, `(lo, None)` with `lo` above the maximum, and `(lo, None, ...)` with more than two items. A non-int bound gets `E80003` with that bound's type. An int pair outside `0 <= lo <= hi <= max_shape_num` gets `E80022`. Two int bounds followed by more items get `E80023`. Fewer than two items raise `IndexError`. No length at all raises `TypeError`. |
| CheckRange.CheckRange | auto_schedule/python/lang/utils/para_check.py:167-245 | A `shape_range` that is not a list or tuple is rejected with `E80003` before anything else is examined. A length that differs from the shape's is rejected with `E80021` before any entry is looked at. The check passes iff every entry is a valid range. |
| CheckRange.CheckRangeFirstFailure | auto_schedule/python/lang/utils/para_check.py:194-245 | With the container and the length correct, the error reported is the one for the first invalid entry in list order. |
| CheckRange.CheckRangeIgnoresDimBounds | auto_schedule/python/lang/utils/para_check.py:167-168 | `min_dim` and `max_dim` never change the outcome. |
| CheckRange.DefaultUnboundedRange | auto_schedule/python/lang/utils/para_check.py:167-198 | With the default `max_shape_num`, `(lo, None)` is accepted iff `0 < lo <= 2**31 - 1`. |
| CheckShape.CheckShapeRank | auto_schedule/python/lang/utils/para_check.py:279-289 | Passes iff `min_rank <= len(shape) <= max_rank`. Otherwise it fails with `E80012`, which carries both limits and the actual rank. |
| CheckShape.CheckDim | auto_schedule/python/lang/utils/para_check.py:252-264 | One dimension passes iff it lies in `[-1, max_dim]`. Otherwise it fails with `E80002`, which carries the dimension. |
| CheckShape.CheckDynamicShape | auto_schedule/python/lang/utils/para_check.py:248-264 | Passes iff `len(shape) <= max_rank` and every dimension lies in `[-1, max_dim]`. A rank that is too large is reported as `E80012` before any dimension is checked. A dimension failure names one of the shape's dimensions. |
| CheckShape.CheckDynamicShapeFirstBadDim | auto_schedule/python/lang/utils/para_check.py:252-264 | Within the rank limit, the dimension reported is the first one that is out of range. |
| CheckShape.DefaultDynamicShape | auto_schedule/python/lang/utils/para_check.py:248-251 | With the default limits, a shape passes iff it has at most 8 dimensions, each in `[-1, 2**31 - 1]`. |
| CheckInputDict.CheckEntry | auto_schedule/python/lang/utils/para_check.py:346-375 | A key not in `input_key` is rejected with `E60038` before its value is looked at. A known key fails only when it is `shape` with a value that is not a list or tuple, or `dtype` with a value that is not a str. Such a value gets `E60037`. |
| CheckInputDict.CheckInputTypeDict | auto_schedule/python/lang/utils/para_check.py:325-375 | The dict passes iff every key is allowed, `shape` is a list or tuple and `dtype` is a str. A failure names one of the dict's entries. |
| CheckInputDict.CheckInputTypeDictFirstFailure | auto_schedule/python/lang/utils/para_check.py:359-375 | Keys are checked in iteration order. The first offending entry is the one reported. |
| CheckInputDict.OtherValuesUnconstrained | auto_schedule/python/lang/utils/para_check.py:369-375 | The value of a key other than `shape` and `dtype` can be anything: changing it never changes the outcome. |
| ShapeSize.CheckTensorShapeSize | auto_schedule/python/lang/utils/para_check.py:467-477 | For a non-empty shape, the left fold `reduce` gives the product of all dimensions. An empty shape raises `TypeError`, because `reduce` has no initial value. |
| ShapeSize.ProductAppend | auto_schedule/python/lang/utils/para_check.py:475 | Appending a dimension multiplies the product by that dimension. This is why the left fold equals the product. |
| ShapeSize.ProductZeroIff | auto_schedule/python/lang/utils/para_check.py:475 | The product is zero iff some dimension is zero. |
| ShapeSize.ProductBoundsDims | auto_schedule/python/lang/utils/para_check.py:475 | When every dimension is positive, the product is positive and at least as large as each dimension. |

## Left out

- The deprecated public functions are not modelled: `check_op_params`, `check_shape`, `check_dtype`, `check_format`, `check_elewise_shape_range`, `check_input_type`, `check_dtype_rule`, `check_shape_rule`, `check_kernel_name`, `check_and_init_5hdc_reduce_support`, `is_scalar` and `check_shape_size`. Each only emits a `DeprecationWarning` and calls `tbe.common.utils`, which is not part of this model.
- `check_reduce_shape_rule` is not modelled. It computes a product and discards it, so it has no observable result beyond the `TypeError` on an empty shape that `CheckTensorShapeSize` already models.
- Warnings and error message text are not modelled, nor is `error_manager.get_error_message`. Only the error code and the values reported with it are modelled. `param_name` only labels the caller's parameter in each `E80xxx` record and is dropped. `_check_input_type_dict` never reads `input_name`. `op_name` is always the constant `OP_NAME = ""`.
- Python's `bool` being a subclass of `int` is not modelled, and `VOther` stands for every value without a length that is not an int, `None` or str. So a float in a range entry is a type error, as in the source. A dict or set used as a range entry is modelled as having no length.
- `CheckRange.CheckRange` takes the shape as a list of ints. The source only reads `len(shape)`.
- `CheckShape.CheckDynamicShape` takes its dimensions as ints. In the source, a non-int dimension would reach Python's comparison operators, and that case is not modelled.
- `CheckInputDict.CheckInputTypeDict` models the dict as its entries in iteration order with string keys, and `input_key` as a list of strings. A str `input_key`, which would turn `in` into a substring test, is not modelled.
- `CheckInputDict.CheckEntry` records only the class name of a mistyped value. It does not record the printed `type(...)` form.
- ShapeSize.CheckTensorShapeSize: takes its dimensions as ints. `reduce` multiplies whatever the shape holds, and for a one-item shape it returns that item whatever its type. Non-int dimensions are not modelled.
- Integer width is not an issue in this code: Python ints are unbounded, and so are Dafny's.
- The enums `OpParamInfoKey` and `TensorFormat`, and the constant tables (`ALL_DTYPE_LIST` and the attribute-kind strings), are not modelled. No local logic reads them.
- `cce_diag.py` is not part of this model. It builds and lowers a TVM schedule, compiles it, runs it on random numpy inputs and compares floating-point results.

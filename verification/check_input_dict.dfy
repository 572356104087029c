/** `_check_input_type_dict`: the keys a tensor-descriptor dict may have,
    and the types of its `shape` and `dtype` entries. */
module CheckInputDict {
  import opened Outcomes
  import opened PyValue
  import opened ParaCommon

  /** A Python dict as its entries in iteration (insertion) order. */
  type Dict = seq<(string, Value)>

  /** The rule for one entry: its key is allowed, a `shape` is a list or a
      tuple, a `dtype` is a str; the values of other keys are not looked at. */
  predicate ValidEntry(key: string, value: Value, inputKey: seq<string>) {
    && key in inputKey
    && (key == "shape" ==> value.IsListOrTuple())
    && (key == "dtype" ==> value.VStr?)
  }

  /** The body of the loop over `input_dict.keys()`, for one key. */
  function CheckEntry(entry: (string, Value), inputKey: seq<string>): (r: Outcome<Error>)
    ensures r.Pass? <==> ValidEntry(entry.0, entry.1, inputKey)
    // an unknown key is reported before its value is looked at
    ensures entry.0 !in inputKey ==> r == Fail(DictKeyError(entry.0))
    ensures entry.0 in inputKey && r.Fail? ==>
              (entry.0 == "shape" || entry.0 == "dtype") &&
              r == Fail(DictValueTypeError(entry.0, entry.1.TypeName()))
  {
    var (key, value) := entry;
    if key !in inputKey then Fail(DictKeyError(key))
    else if key == "shape" && !value.IsListOrTuple() then Fail(DictValueTypeError(key, value.TypeName()))
    else if key == "dtype" && !value.VStr? then Fail(DictValueTypeError(key, value.TypeName()))
    else Pass
  }

  /** `_check_input_type_dict(input_dict, input_key, input_name)` */
  function CheckInputTypeDict(inputDict: Dict, inputKey: seq<string>): (r: Outcome<Error>)
    ensures r.Pass? <==>
              forall k :: 0 <= k < |inputDict| ==> ValidEntry(inputDict[k].0, inputDict[k].1, inputKey)
    ensures r.Fail? ==>
              exists k :: 0 <= k < |inputDict| &&
                (r == Fail(DictKeyError(inputDict[k].0)) ||
                 r == Fail(DictValueTypeError(inputDict[k].0, inputDict[k].1.TypeName())))
  {
    var r := CheckAll(inputDict, e => CheckEntry(e, inputKey));
    assert r.Fail? ==> exists k :: 0 <= k < |inputDict| && CheckEntry(inputDict[k], inputKey) == r;
    r
  }

  /** Keys are checked in iteration order: the first offending entry is the
      one reported. */
  lemma CheckInputTypeDictFirstFailure(inputDict: Dict, inputKey: seq<string>, k: int)
    requires 0 <= k < |inputDict|
    requires forall j :: 0 <= j < k ==> ValidEntry(inputDict[j].0, inputDict[j].1, inputKey)
    requires !ValidEntry(inputDict[k].0, inputDict[k].1, inputKey)
    ensures CheckInputTypeDict(inputDict, inputKey) == CheckEntry(inputDict[k], inputKey)
  {
    CheckAllFirstFailure(inputDict, e => CheckEntry(e, inputKey), k);
  }

  /** The value of an entry whose key is neither `shape` nor `dtype` may be
      anything: changing it does not change the outcome. */
  lemma OtherValuesUnconstrained(inputDict: Dict, inputKey: seq<string>, k: int, v: Value)
    requires 0 <= k < |inputDict|
    requires inputDict[k].0 != "shape" && inputDict[k].0 != "dtype"
    ensures CheckInputTypeDict(inputDict[k := (inputDict[k].0, v)], inputKey) ==
            CheckInputTypeDict(inputDict, inputKey)
  {
    CheckAllReplace(inputDict, e => CheckEntry(e, inputKey), k, (inputDict[k].0, v));
  }
}

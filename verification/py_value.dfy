/** The dynamically typed Python values that reach the parameter checker. */
module PyValue {

  /** A Python value, as far as the checker looks at it. `VOther` stands for
      every value that has no length and is not an int, None or str (a
      float, an object, ...); it carries its class name. */
  datatype Value =
    | VInt(i: int)
    | VNone
    | VStr(s: string)
    | VList(elems: seq<Value>)
    | VTuple(elems: seq<Value>)
    | VOther(className: string)
  {
    /** `isinstance(v, (tuple, list))` */
    predicate IsListOrTuple() {
      VList? || VTuple?
    }

    /** `len(v)` and `v[i]` are defined: a list, a tuple or a str. */
    predicate HasLen() {
      IsListOrTuple() || VStr?
    }

    /** The entries `v[0], v[1], ...`; indexing a str yields one-character
        strings. */
    function Items(): (xs: seq<Value>)
      requires HasLen()
      ensures IsListOrTuple() ==> xs == elems
      ensures VStr? ==> |xs| == |s| && forall k :: 0 <= k < |xs| ==> xs[k] == VStr([s[k]])
    {
      if IsListOrTuple() then elems
      else seq(|s|, k requires 0 <= k < |s| => VStr([s[k]]))
    }

    /** `v.__class__.__name__` */
    function TypeName(): (name: string) {
      match this
      case VInt(_) => "int"
      case VNone => "NoneType"
      case VStr(_) => "str"
      case VList(_) => "list"
      case VTuple(_) => "tuple"
      case VOther(n) => n
    }
  }
}

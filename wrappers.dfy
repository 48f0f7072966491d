/** The optional value used for the component's nullable state cells. */
module Wrappers {

  datatype Option<T(==)> = None | Some(value: T) {

    /** The held value as a set: empty or a singleton. */
    function ToSet(): (r: set<T>)
      ensures |r| <= 1
      ensures Some? ==> r == {value}
      ensures None? ==> r == {}
    {
      if Some? then {value} else {}
    }

    /** The held value as a sequence: empty or of length one. */
    function ToSeq(): (r: seq<T>)
      ensures |r| <= 1
      ensures Some? ==> r == [value]
      ensures None? ==> r == []
    {
      if Some? then [value] else []
    }
  }
}

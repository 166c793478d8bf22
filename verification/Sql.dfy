/** SQL's three-valued logic, for conditions over columns that can be null. */
module Sql {
  import opened Prelude

  datatype Truth = Yes | No | Unknown

  /** A `WHERE` keeps the rows whose condition is true, and only those. */
  predicate Selected(t: Truth) {
    t == Yes
  }

  function Is(b: bool): Truth {
    if b then Yes else No
  }

  function Not(t: Truth): Truth {
    match t
    case Yes => No
    case No => Yes
    case Unknown => Unknown
  }

  function And(a: Truth, b: Truth): Truth {
    if a == No || b == No then No
    else if a == Yes && b == Yes then Yes
    else Unknown
  }

  function Or(a: Truth, b: Truth): Truth {
    Not(And(Not(a), Not(b)))
  }

  function IsNull<T>(column: Option<T>): Truth {
    Is(column.None?)
  }

  function Equals<T(==)>(column: Option<T>, v: T): Truth {
    match column
    case None => Unknown
    case Some(x) => Is(x == v)
  }

  /** `column IN (values)`; an empty list contains nothing, null included. */
  function In<T(==)>(column: Option<T>, values: seq<T>): Truth {
    if values == [] then No
    else
      match column
      case None => Unknown
      case Some(x) => Is(x in values)
  }

  function AtMost(column: Option<int>, v: int): Truth {
    match column
    case None => Unknown
    case Some(x) => Is(x <= v)
  }

  function Below(column: Option<int>, v: int): Truth {
    match column
    case None => Unknown
    case Some(x) => Is(x < v)
  }

  function AtLeast(column: Option<int>, v: int): Truth {
    Not(Below(column, v))
  }
}

/** Option and Result values used for the source's `None` and its caught exceptions. */
module Wrappers {

  datatype Option<+T> = None | Some(value: T) {
    /** Python's `x or default` when `x` may be None. */
    function GetOr(default: T): T {
      match this
      case Some(v) => v
      case None => default
    }
  }

  /** `Err` carries the text of an exception (`str(e)`). */
  datatype Result<+T> = Ok(value: T) | Err(error: string)

  /** A JSON field as the client sent it: left out, `null`, or a value. */
  datatype Field<T> = Absent | Null | Given(value: T)

  /** An `Optional[...] = None` field: absent and null both become None. */
  function OptionalField<T>(f: Field<T>): (r: Option<T>)
    ensures r.Some? <==> f.Given?
    ensures r.Some? ==> r.value == f.value
  {
    if f.Given? then Some(f.value) else None
  }

  /** A Python value sent as a JSON field: None becomes `null`. Reading the
      field back gives the value again. */
  function FieldOf<T>(o: Option<T>): (f: Field<T>)
    ensures !f.Absent?
    ensures OptionalField(f) == o
  {
    if o.Some? then Given(o.value) else Null
  }
}

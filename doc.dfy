/** A field of a stored document (a Firestore document or a JSON payload
    read into a Python dict): the key may be absent, present with `null`,
    or present with a value. */
module Doc {
  import opened Wrappers

  datatype Field<+T> = Absent | Null | Present(value: T) {

    /** `d.get(key)`: both an absent key and a stored `null` read as `None`. */
    function Get(): (r: Option<T>)
      ensures r.Some? <==> Present?
    {
      if Present? then Some(value) else None
    }

    /** `d.get(key, default)`: only an absent key yields the default; a
        stored `null` is still `None`. */
    function GetDefault(default: T): (r: Option<T>)
      ensures Absent? ==> r == Some(default)
      ensures Null? ==> r == None
      ensures Present? ==> r == Some(value)
    {
      match this
      case Absent => Some(default)
      case Null => None
      case Present(v) => Some(v)
    }
  }
}

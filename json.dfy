/** How Jackson fills a Java object from a JSON body: it calls the no-argument
    constructor, which runs the field initializers, then sets each property
    the body names. */
module Json {
  import opened Wrappers

  /** A member of a JSON object: missing, explicitly null, or a value. */
  datatype Field<T> = Absent | Null | Present(value: T)

  /** What Jackson leaves in a property of the object it deserializes into:
      the field initializer's value when the member is missing, null for an
      explicit null, else the value. */
  function JsonField<T>(f: Field<T>, initial: Option<T>): (r: Option<T>)
    ensures f.Present? ==> r == Some(f.value)
    ensures f.Null? ==> r.None?
    ensures f.Absent? ==> r == initial
  {
    match f
    case Absent => initial
    case Null => None
    case Present(v) => Some(v)
  }
}

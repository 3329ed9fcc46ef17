/** Present-or-absent values. JavaScript's `null` and `undefined` both become
    `None`: nothing in the client tells the two apart. */
module Optional {

  datatype Option<T> = None | Some(value: T)

  /** The held value, or `fallback` when absent: the `x ?? fallback` reading
      of an optional value. */
  function ValueOr<T>(o: Option<T>, fallback: T): (r: T)
    ensures o.Some? ==> r == o.value
    ensures o.None? ==> r == fallback
  {
    if o.Some? then o.value else fallback
  }
}

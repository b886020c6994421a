/** Rust's `Option`, with the one combinator the add-on accessors use to
    merge a repository value with a folder value. */
module Options {

  datatype Option<+T> = None | Some(value: T) {

    /** `unwrap_or`: the carried value, or `default` when there is none. */
    function UnwrapOr(default: T): (r: T)
      ensures Some? ==> r == value
      ensures None? ==> r == default
    {
      match this
      case Some(v) => v
      case None => default
    }
  }

  /** "First present wins": `a.map_or(b, Option::Some)`. */
  function Or<T>(a: Option<T>, b: Option<T>): (r: Option<T>)
    ensures a.Some? ==> r == a
    ensures a.None? ==> r == b
    ensures r.Some? <==> a.Some? || b.Some?
  {
    match a
    case Some(_) => a
    case None => b
  }
}

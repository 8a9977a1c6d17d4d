/** Small shared vocabulary. */
module Common {

  datatype Option<+T> = None | Some(value: T)

  /** `s` is an initial segment of `t`. */
  predicate IsPrefix<T(==)>(s: seq<T>, t: seq<T>)
  {
    |s| <= |t| && s == t[..|s|]
  }
}

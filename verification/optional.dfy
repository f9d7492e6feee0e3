/** A value that may be missing: an absent query parameter, an absent JSON field. */
module Optional {

  datatype Option<+T> = None | Some(value: T)

  /** JavaScript `v || fallback` on a field that is either absent or a string:
      absent and the empty string are both falsy. */
  function OrElse(v: Option<string>, fallback: string): (r: string)
    ensures v.Some? && v.value != "" ==> r == v.value
    ensures !(v.Some? && v.value != "") ==> r == fallback
  {
    if v.Some? && v.value != "" then v.value else fallback
  }
}

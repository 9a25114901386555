/** JavaScript values shared by the components: nullable strings, their
    truthiness, and `startsWith`. */
module Common {

  /** A value that may be JavaScript `null`. */
  datatype Option<+T> = None | Some(value: T)

  /** JavaScript truthiness of a `string | null`: `null` and `""` are falsy,
      every other string is truthy. */
  predicate IsTruthy(s: Option<string>)
  {
    s.Some? && s.value != ""
  }

  /** `s.startsWith(prefix)` */
  predicate StartsWith(s: string, prefix: string)
  {
    |prefix| <= |s| && s[..|prefix|] == prefix
  }

  /** The value of an option as a list of at most one element, for appending
      to a log. */
  function ToSeq<T>(o: Option<T>): (r: seq<T>)
    ensures |r| <= 1
    ensures o.None? ==> r == []
    ensures o.Some? ==> r == [o.value]
  {
    match o
    case None => []
    case Some(v) => [v]
  }
}

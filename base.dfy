/** Values shared by every part of the model: optional values, outcomes of
    remote calls, and the value that stands for a call to `router.navigate`. */
module Base {

  /** `T | null` / `T | undefined` in the source. */
  datatype Option<T> = None | Some(value: T)

  /** The outcome of a call that either returns a value or throws. */
  datatype Result<T, E> = Ok(value: T) | Err(error: E)

  /** A call `router.navigate([ruta], { queryParams: { returnUrl } })`;
      `returnUrl` is `None` when the call passes no query parameters. */
  datatype Navegacion = Navegacion(ruta: string, returnUrl: Option<string>)

  /** JavaScript's `a || b` where `a` is an optional string: the empty
      string and a missing value are both falsy. */
  function Or(a: Option<string>, b: string): (r: string)
    ensures a.Some? && a.value != "" ==> r == a.value
    ensures a.None? || a.value == "" ==> r == b
    ensures r == "" ==> b == ""
  {
    if a.Some? && a.value != "" then a.value else b
  }
}

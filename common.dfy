/** Small values shared by every part of the model. */
module Common {

  /** A value that may be missing (Python's `None`). */
  datatype Option<T> = None | Some(value: T)

  /** An error that a Django form attaches to one of its fields with `add_error`. */
  datatype ErrorCampo = ErrorCampo(campo: string, mensaje: string)

  /** Python truthiness of an optional string: `None` and `""` are false. */
  predicate Truthy(s: Option<string>)
  {
    s.Some? && s.value != ""
  }

  /**
    The confirmation check both forms' `clean` make: `if a and b and a != b`
    then one error on `campo`.
  */
  function ErrorSiDistintos(campo: string, mensaje: string, a: Option<string>, b: Option<string>): (errores: seq<ErrorCampo>)
    ensures errores != [] <==> Truthy(a) && Truthy(b) && a.value != b.value
    ensures |errores| <= 1 && forall e :: e in errores ==> e == ErrorCampo(campo, mensaje)
  {
    if Truthy(a) && Truthy(b) && a != b then [ErrorCampo(campo, mensaje)] else []
  }
}

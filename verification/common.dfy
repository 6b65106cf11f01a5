/** Values shared by every part of the model: bytes, optional values,
    results, and the error values the gateway hands back to its callers. */
module Common {

  newtype byte = x: int | 0 <= x < 256

  type Bytes = seq<byte>

  /** Go's "pointer or nil". */
  datatype Option<+T> = None | Some(value: T)

  /** An error as the Go code returns it.
      - `Cause` is an error produced by a collaborator outside the model
        (the JSON marshaller, the transport, the token refresh, ...), passed on
        unchanged.
      - `FieldErrors` is the ozzo-validation `validation.Errors` value: a map
        from a field's JSON name to the message of the rule it failed.
      - `MpesaConn` is an error of the `errors.ErrMpesaConn` class, made either
        by `New(message)` (no cause) or by `Wrap(cause, message)`. */
  datatype Error =
    | Cause(text: string)
    | FieldErrors(fields: map<string, string>)
    | MpesaConn(message: string, cause: Option<Error>)

  /** A value or the error that prevented it: Go's `(T, error)` pair. */
  datatype Result<+T> = Ok(value: T) | Err(error: Error)
}

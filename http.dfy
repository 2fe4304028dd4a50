/** HTTP responses as the controllers and the exception handler build them. */
module Http {

  const StatusOk: nat := 200
  const StatusInternalServerError: nat := 500
  const StatusServiceUnavailable: nat := 503

  /** A response body: a serialised object, or a plain string. */
  datatype Body<+T> = Json(value: T) | Text(text: string)

  datatype Response<+T> = Response(status: nat, body: Body<T>)
}

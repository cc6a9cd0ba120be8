/** The two value records the service passes around: a movie and the body of an
    error response. Strings that Java allows to be null are Option<string>. */
module Model {
  import opened Wrappers

  /** A film record. `id` is assigned by the store; the other fields come from
      the request body. Java `int` fields are unbounded integers here. */
  datatype Movie = Movie(
    id: int,
    title: Option<string>,
    durationMinutes: int,
    year: int,
    director: Option<string>)

  /** The uniform error envelope: a short label, the detail message and the
      HTTP status code it was sent with. */
  datatype ErrorResponse = ErrorResponse(
    error: Option<string>,
    message: Option<string>,
    status: int)
}

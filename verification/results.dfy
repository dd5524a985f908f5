/** Failure-carrying values shared by every endpoint of the forum backend. */
module Results {

  /** A value that may be absent; also stands for a JSON `null`. */
  datatype Option<+T> = None | Some(value: T)

  /** The HTTP error an endpoint raises: a status code and the `detail` text. */
  datatype HttpError = HttpError(status: int, detail: string)

  /** What an endpoint answers: a typed payload or an HTTP error. */
  datatype Result<+T> = Ok(value: T) | Err(error: HttpError)
}

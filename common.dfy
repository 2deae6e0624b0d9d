/** Small shared vocabulary: optional values, fallible results and HTTP replies. */
module Common {

  datatype Option<+T> = None | Some(value: T)

  datatype Result<+T, +E> = Ok(value: T) | Err(error: E)

  /** What a handler leaves in its http.ResponseWriter. `Unwritten` is a handler that
      wrote nothing at all (net/http then answers 200 with an empty body). */
  datatype Response = Unwritten | Reply(status: int, body: string)

  /** net/http's http.Error: the message followed by a newline, under the given status. */
  function HttpError(message: string, status: int): (r: Response)
    ensures r.Reply? && r.status == status && r.body == message + "\n"
  {
    Reply(status, message + "\n")
  }

  const StatusOK := 200
  const StatusBadRequest := 400
  const StatusForbidden := 403
  const StatusNotFound := 404
  const StatusMethodNotAllowed := 405
  const StatusInternalServerError := 500
}

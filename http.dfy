/** The response categories the controllers send. */
module Http {

  /** 200 with a body, 201 with the created record, 400 and 404 with a
      message. */
  datatype Reply<+T> =
    | Ok(body: T)
    | Created(body: T)
    | BadRequest(message: string)
    | NotFound(message: string)
  {
    /** The HTTP status code of the reply. */
    function Status(): int {
      match this
      case Ok(_) => 200
      case Created(_) => 201
      case BadRequest(_) => 400
      case NotFound(_) => 404
    }
  }
}

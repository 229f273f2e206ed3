/** What a request handler sends back, with the HTTP status the error
    middleware and Express give it. */
module Responses {

  datatype Outcome<+T> =
    | Ok(value: T)             // 200 with the JSON of `value`
    | Created(value: T)        // 201 with the JSON of the new record
    | BadRequest(msg: string)  // 400 `{ error: msg }`
    | NotFound(msg: string)    // 404 `{ error: msg }`
    | ServerError              // 500: the schema rejected the write
  {
    function Status(): (code: int)
      ensures 200 <= code < 600
      ensures code < 300 <==> Ok? || Created?
    {
      match this
      case Ok(_) => 200
      case Created(_) => 201
      case BadRequest(_) => 400
      case NotFound(_) => 404
      case ServerError => 500
    }
  }

  /** The body `{ ok: true, deleted: id }` of a successful delete. */
  datatype Deleted = Deleted(id: string)
}

/**
  The part of an HTTP response the handlers decide: the status code, the JSON
  body and, for the redirect, the Location header.
*/
module Http {
  import opened Wrappers
  import opened Items

  const OK := 200
  const Created := 201
  const NoContent := 204
  const Found := 302
  const BadRequest := 400
  const NotFound := 404
  const Conflict := 409
  const InternalServerError := 500

  /** The response body: none, `{"message": text}`, or the `Count`/`Items`/`Scanned` listing of GET /. */
  datatype Payload =
    | NoBody
    | Message(text: string)
    | Listing(count: nat, items: set<Item>, scanned: nat)

  datatype Response = Response(status: int, body: Payload, location: Option<string>)

  /** A response whose body is `{"message": text}` and which sets no Location. */
  function MessageResponse(status: int, text: string): Response {
    Response(status, Message(text), None)
  }
}

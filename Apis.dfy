/** The errors the backend's HTTP handlers return, shared by the feed and
    the key and archive handlers. */
module Apis {

  /** `Forbidden`, `BadRequest` and `NotFound` carry the message of the
      matching API error. `NilFeed` is the nil-pointer dereference the
      feed subscription runs into when the server answers 304. */
  datatype ApiError = Forbidden(message: string) | BadRequest(message: string) | NotFound(message: string) | NilFeed
}

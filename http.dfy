/**
 * What the pages see of an HTTP call: the request they build and the two ways
 * `axios` can finish, a reply or a thrown error. The network itself is not
 * modelled; a reply is an input to the handler that awaits it.
 */
module Http {
  import opened Wrappers

  /** A JSON POST or PUT with an optional `Authorization: Bearer` header. */
  datatype Request<B> = Request(url: string, bearer: Option<string>, body: B)

  /** The three branches of the pages' catch blocks. */
  datatype HttpError =
    | ErrorResponse(message: Option<string>)   // `error.response`, with `data.message` if any
    | NoResponse                                // `error.request`: nothing came back
    | SetupError(reason: string)                // anything else, with `error.message`

  datatype Reply<T> = Replied(body: T) | Threw(error: HttpError)
}

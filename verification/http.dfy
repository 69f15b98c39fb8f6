/** The JSON responses the two API routes send: a status code and a body. */
module Http {

  datatype Body =
    | ErrorBody(error: string)
      /** The body of a successful upload; it carries `success: true`. */
    | Uploaded(filename: string, size: nat, fileType: string, content: string,
               wordCount: nat, characterCount: nat)
      /** The body of a successful chat call; it carries `success: true`. */
    | Reply(response: string)

  datatype Response = Response(status: nat, body: Body) {
    /** `response.ok` on the client side. */
    predicate Ok() {
      200 <= status <= 299
    }
  }
}
